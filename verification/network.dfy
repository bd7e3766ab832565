/**
 * NetworkAcceptor: the connection -> handler map, the set of connections
 * the reader watches, and the three polling steps that drive handlers.
 * Accepting a connection, receiving a datagram and the connection health
 * check come from the network library; they are parameters here.
 */
module Network {
  import opened Wire
  import opened Registry
  import Dispatch
  import opened Director

  /** Every element of `s` occurs once. */
  ghost predicate Distinct(s: seq<ConnectionId>) {
    forall i, j :: 0 <= i < j < |s| ==> s[i] != s[j]
  }

  /** The connections occurring in `s`. */
  ghost function Elements(s: seq<ConnectionId>): set<ConnectionId> {
    set c | c in s
  }

  /**
   * The connections of `walk` whose health check fails, in walk order:
   * the ones disconnect_poll disconnects.
   */
  function Down(walk: seq<ConnectionId>, isOk: ConnectionId -> bool): (r: seq<ConnectionId>)
    ensures forall c :: c in r <==> c in walk && !isOk(c)
    ensures Distinct(walk) ==> Distinct(r)
    decreases |walk|
  {
    if walk == [] then []
    else
      var c := walk[|walk| - 1];
      assert Distinct(walk) ==> c !in walk[..|walk| - 1];
      Down(walk[..|walk| - 1], isOk) + (if isOk(c) then [] else [c])
  }

  /** The departures recorded for the connections `cs`, in order. */
  ghost function Leaving(m: map<ConnectionId, Dispatch.Departure>, cs: seq<ConnectionId>): (r: seq<Dispatch.Departure>)
    requires forall c :: c in cs ==> c in m
    ensures |r| == |cs|
    ensures forall i :: 0 <= i < |cs| ==> r[i] == m[cs[i]]
  {
    if cs == [] then [] else Leaving(m, cs[..|cs| - 1]) + [m[cs[|cs| - 1]]]
  }

  /** One more connection of a walk without repeats: it is new, and Down grows by it when it is down. */
  lemma DownStep(walk: seq<ConnectionId>, i: nat, isOk: ConnectionId -> bool)
    requires Distinct(walk) && i < |walk|
    ensures walk[i] !in walk[..i]
    ensures Down(walk[..i + 1], isOk) == Down(walk[..i], isOk) + (if isOk(walk[i]) then [] else [walk[i]])
  {
    assert walk[..i + 1][..i] == walk[..i];
  }

  /** Recording one more departure appends its entry. */
  lemma LeavingStep(m: map<ConnectionId, Dispatch.Departure>, cs: seq<ConnectionId>, c: ConnectionId)
    requires forall x :: x in cs ==> x in m
    requires c in m
    ensures Leaving(m, cs + [c]) == Leaving(m, cs) + [m[c]]
  {
    assert (cs + [c])[..|cs|] == cs;
  }

  /** Removing the connections of `s` and then `c` is removing those of `s + [c]`. */
  lemma RemoveOneMore<V>(m: map<ConnectionId, V>, s: seq<ConnectionId>, c: ConnectionId)
    ensures m - Elements(s + [c]) == (m - Elements(s)) - {c}
  {
    assert Elements(s + [c]) == Elements(s) + {c};
  }

  /**
   * Every mapped handler's number is below `next`, and no two mapped
   * handlers share one.
   */
  ghost predicate Numbered(handlers: map<ConnectionId, Handler>, next: HandlerId)
  {
    && (forall c :: c in handlers ==> handlers[c].id < next)
    && (forall c, d :: c in handlers && d in handlers && c != d ==> handlers[c].id != handlers[d].id)
  }

  class NetworkAcceptor {
    /**
     * The interface handlers are made for: null for the base acceptor,
     * whose init_handler makes plain NetworkHandlers, and the message
     * director's ParticipantInterface for its override, which makes
     * Participants.
     */
    const director: ParticipantInterface?
    var handlers: map<ConnectionId, Handler>
    var readerConnections: set<ConnectionId>
    var nextId: HandlerId

    /**
     * Every handler is filed under its own connection and belongs to this
     * acceptor, and the reader watches exactly the mapped connections.
     */
    ghost predicate Filed()
      reads this, director
    {
      && (forall c :: c in handlers ==> handlers[c].connection == c && handlers[c].iface == director)
      && readerConnections == handlers.Keys
      && (director != null ==> director.Valid())
    }

    /**
     * Moreover every handler's number was issued by init_handler and no
     * two mapped handlers share one (the number stands for the handler's
     * address).
     */
    ghost predicate Valid()
      reads this, director
    {
      Filed() && Numbered(handlers, nextId)
    }

    constructor (director: ParticipantInterface?)
      requires director != null ==> director.Valid()
      ensures this.director == director
      ensures handlers == map[] && readerConnections == {} && nextId == 0
      ensures Valid()
    {
      this.director := director;
      handlers := map[];
      readerConnections := {};
      nextId := 0;
    }

    /** has_handler: a handler is mapped under the handler's connection. */
    function HasHandler(h: Handler): (r: bool)
      reads this
      ensures r <==> GetHandler(h.connection) != null
    {
      h.connection in handlers
    }

    /** get_handler: the handler mapped under `connection`, or null. */
    function GetHandler(connection: ConnectionId): (r: Handler?)
      reads this
      ensures r != null <==> connection in handlers
      ensures r != null ==> r == handlers[connection]
    {
      if connection in handlers then handlers[connection] else null
    }

    /** add_handler: a connection that is already mapped keeps its handler. */
    method AddHandler(h: Handler)
      requires Valid() && h.iface == director && h.id < nextId
      requires forall c :: c in handlers && c != h.connection ==> handlers[c].id != h.id
      modifies this`handlers, this`readerConnections
      ensures old(h.connection in handlers) ==>
                handlers == old(handlers) && readerConnections == old(readerConnections)
      ensures old(h.connection !in handlers) ==>
                && handlers == old(handlers)[h.connection := h]
                && readerConnections == old(readerConnections) + {h.connection}
      ensures Valid()
    {
      if HasHandler(h) {
        return;
      }
      handlers := handlers[h.connection := h];
      readerConnections := readerConnections + {h.connection};
    }

    /**
     * remove_handler: the handler's connection leaves the map and the
     * reader; removing an unmapped connection changes nothing, so a
     * second removal is harmless.
     */
    method RemoveHandler(h: Handler)
      requires Filed()
      modifies this`handlers, this`readerConnections
      ensures h.connection !in old(handlers) ==>
                handlers == old(handlers) && readerConnections == old(readerConnections)
      ensures handlers == old(handlers) - {h.connection}
      ensures readerConnections == old(readerConnections) - {h.connection}
      ensures Filed() && (old(Valid()) ==> Valid())
    {
      if !HasHandler(h) {
        return;
      }
      readerConnections := readerConnections - {h.connection};
      handlers := handlers - {h.connection};
    }

    /** disconnect_handler: run the handler's disconnected hook, then remove it. */
    method DisconnectHandler(h: Handler, fuel: nat)
      requires Filed() && h.iface == director
      modifies this`handlers, this`readerConnections, h, director
      ensures handlers == old(handlers) - {h.connection}
      ensures readerConnections == old(readerConnections) - {h.connection}
      ensures director == null ==> h.channel == old(h.channel)
      ensures director != null ==>
                Dispatch.Step(director.Tables(), h.channel)
                == Dispatch.Disconnected(director.order, old(director.Tables()), h.id, old(h.channel), fuel)
      ensures Filed() && (old(Valid()) ==> Valid())
    {
      h.Disconnected(fuel);
      RemoveHandler(h);
    }

    /**
     * init_handler: a new handler for `connection`, a Participant with no
     * primary channel when this acceptor is the message director.
     */
    method InitHandler(connection: ConnectionId) returns (h: Handler)
      requires Valid()
      modifies this`nextId
      ensures fresh(h)
      ensures h.id == old(nextId) && h.connection == connection && h.iface == director && h.channel == 0
      ensures nextId == old(nextId) + 1
      ensures Valid()
    {
      h := new Handler(nextId, connection, director);
      nextId := nextId + 1;
    }

    /**
     * listener_poll: an accepted connection gets exactly one new handler,
     * mapped under it unless the connection is already mapped.
     */
    method ListenerPoll(accepted: Option<ConnectionId>)
      requires Valid()
      modifies this`handlers, this`readerConnections, this`nextId
      ensures accepted.None? ==> handlers == old(handlers) && nextId == old(nextId)
      ensures accepted.Some? && accepted.value in old(handlers) ==> handlers == old(handlers)
      ensures accepted.Some? && accepted.value !in old(handlers) ==>
                && handlers.Keys == old(handlers).Keys + {accepted.value}
                && (forall c :: c in old(handlers) ==> handlers[c] == old(handlers)[c])
                && fresh(handlers[accepted.value])
                && handlers[accepted.value].channel == 0
                && handlers[accepted.value].id == old(nextId)
      ensures Valid()
    {
      if accepted.Some? {
        var h := InitHandler(accepted.value);
        AddHandler(h);
      }
    }

    /**
     * reader_poll for a datagram that arrived on `connection`: an empty
     * datagram disconnects the connection's handler at once and is not
     * delivered; any other datagram is delivered to that handler.
     */
    method ReaderPoll(connection: ConnectionId, frame: Bytes, fuel: nat)
      requires Valid() && connection in handlers
      modifies this`handlers, this`readerConnections, handlers[connection], director
      ensures |frame| == 0 ==>
                && handlers == old(handlers) - {connection}
                && (director != null ==>
                      Dispatch.Step(director.Tables(), old(handlers[connection]).channel)
                      == Dispatch.Disconnected(director.order, old(director.Tables()), old(handlers[connection]).id,
                                               old(handlers[connection].channel), fuel))
      ensures |frame| > 0 ==>
                && handlers == old(handlers)
                && (director != null ==>
                      Dispatch.Step(director.Tables(), handlers[connection].channel)
                      == Dispatch.Receive(director.order, old(director.Tables()), handlers[connection].id,
                                          old(handlers[connection].channel), frame, fuel))
      ensures Valid()
    {
      var h := GetHandler(connection);
      if |frame| == 0 {
        DisconnectHandler(h, fuel);
      } else {
        h.ReceiveDatagram(frame, fuel);
      }
    }

    /**
     * The mapped connections, each once, in the order disconnect_poll
     * walks the map (left to the library, so any order).
     */
    method WalkOrder() returns (order: seq<ConnectionId>)
      ensures forall c :: c in order <==> c in handlers
      ensures Distinct(order)
    {
      order := [];
      var rest := handlers.Keys;
      while rest != {}
        invariant rest <= handlers.Keys
        invariant forall c :: c in order <==> c in handlers && c !in rest
        invariant Distinct(order)
        decreases rest
      {
        var c :| c in rest;
        order := order + [c];
        rest := rest - {c};
      }
    }

    /**
     * disconnect_poll: every handler whose connection is no longer ok is
     * disconnected, in the order the map is walked, and the healthy ones
     * stay mapped to the same, untouched handler. `gone` lists the
     * connections whose handlers were disconnected, each once and in that
     * order, and `departures` the ids and primary channels their handlers
     * had when the poll began; the director's tables end as the
     * disconnected hooks of those participants, run one after the other,
     * leave them.
     */
    method DisconnectPoll(isOk: ConnectionId -> bool, fuel: nat)
      returns (ghost gone: seq<ConnectionId>, ghost departures: seq<Dispatch.Departure>)
      requires Valid()
      modifies this`handlers, this`readerConnections, handlers.Values, director
      ensures forall c :: c in handlers <==> c in old(handlers) && isOk(c)
      ensures forall c :: c in handlers ==>
                handlers[c] == old(handlers)[c] && handlers[c].channel == old(handlers[c].channel)
      ensures forall c :: c in gone <==> c in old(handlers) && !isOk(c)
      ensures Distinct(gone)
      ensures |departures| == |gone|
      ensures forall i :: 0 <= i < |gone| ==>
                departures[i] == Dispatch.Departure(old(handlers)[gone[i]].id, old(handlers[gone[i]].channel))
      ensures director != null ==>
                director.Tables() == Dispatch.DisconnectEach(director.order, old(director.Tables()), departures, fuel)
      ensures Valid()
    {
      var order := WalkOrder();
      gone, departures := DisconnectWalk(order, isOk, fuel);
    }

    /**
     * The loop of disconnect_poll over the connections `order`: the
     * handlers of those that fail the check are disconnected one by one.
     */
    method DisconnectWalk(order: seq<ConnectionId>, isOk: ConnectionId -> bool, fuel: nat)
      returns (ghost gone: seq<ConnectionId>, ghost departures: seq<Dispatch.Departure>)
      requires Filed() && Distinct(order) && forall c :: c in order ==> c in handlers
      modifies this`handlers, this`readerConnections, handlers.Values, director
      ensures gone == Down(order, isOk)
      ensures handlers == old(handlers) - Elements(gone)
      ensures forall c :: c in handlers ==> handlers[c].channel == old(handlers[c].channel)
      ensures |departures| == |gone|
      ensures forall i :: 0 <= i < |gone| ==>
                departures[i] == Dispatch.Departure(old(handlers)[gone[i]].id, old(handlers[gone[i]].channel))
      ensures director != null ==>
                director.Tables() == Dispatch.DisconnectEach(director.order, old(director.Tables()), departures, fuel)
      ensures Filed()
    {
      ghost var snapshot := map c | c in handlers :: Dispatch.Departure(handlers[c].id, handlers[c].channel);
      gone := [];
      for i := 0 to |order|
        invariant Filed()
        invariant gone == Down(order[..i], isOk)
        invariant handlers == old(handlers) - Elements(gone)
        invariant forall c :: c in handlers ==> handlers[c].channel == old(handlers[c].channel)
        invariant director != null ==>
                    director.Tables()
                    == Dispatch.DisconnectEach(director.order, old(director.Tables()), Leaving(snapshot, gone), fuel)
      {
        var c := order[i];
        DownStep(order, i, isOk);
        ghost var h := handlers[c];
        assert h in old(handlers).Values;
        if !isOk(c) {
          LeavingStep(snapshot, gone, c);
          if director != null {
            Dispatch.DisconnectEachStep(director.order, old(director.Tables()), Leaving(snapshot, gone), snapshot[c], fuel);
          }
          RemoveOneMore(old(handlers), gone, c);
          gone := gone + [c];
        }
        CheckConnection(c, isOk(c), fuel);
      }
      departures := Leaving(snapshot, gone);
      assert order[..|order|] == order;
    }

    /** One turn of disconnect_poll: disconnect the handler of `connection` unless it is ok. */
    method CheckConnection(connection: ConnectionId, ok: bool, fuel: nat)
      requires Filed() && connection in handlers
      modifies this`handlers, this`readerConnections, handlers[connection], director
      ensures ok ==> handlers == old(handlers) && (director != null ==> director.Tables() == old(director.Tables()))
      ensures !ok ==> handlers == old(handlers) - {connection}
      ensures !ok && director != null ==>
                director.Tables()
                == Dispatch.Disconnected(director.order, old(director.Tables()), old(handlers[connection].id),
                                         old(handlers[connection].channel), fuel).tables
      ensures forall c :: c in handlers ==> handlers[c].channel == old(handlers[c].channel)
      ensures Filed()
    {
      if !ok {
        DisconnectHandler(handlers[connection], fuel);
      }
    }
  }
}
