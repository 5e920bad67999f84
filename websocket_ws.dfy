// aya-backend/server-ws/socket/websocket.go: the websocket server of the
// newest backend. `ChanMap` keeps, per session, the channels of its open
// connections under connection ids handed out by a per-session counter; a new
// connection registers the session with the message hub, and the last one to
// close removes it. A connection's channel is named by its session and id, so
// a delivery is the triple (session, id, message). The HTTP upgrade, the
// read/write loops and JSON encoding are not modelled; an upgrade failure is
// an input.

module WebsocketWs {
  import opened Common
  import opened ChatMessage

  /** `WSConnectionMap`: the ids of a session's open connections and the last id handed out. */
  datatype ConnectionMap = ConnectionMap(connections: set<nat>, countId: nat)

  type ChanMap = map<string, ConnectionMap>

  /** A message sent on the channel of connection `connId` of a session. */
  datatype Delivery = Delivery(sessionId: string, connId: nat, msg: MessageUpdate)

  /** The calls made on the message hub. */
  datatype HubCall = AddSession(sessionId: string) | RemoveSession(sessionId: string)

  datatype ConnectOutcome = BadRequest | UpgradeFailed | Connected(connId: nat)

  /** Every open connection's id lies between 1 and its session's counter. */
  ghost predicate WellNumbered(chanMap: ChanMap)
  {
    forall s :: s in chanMap ==>
      chanMap[s].countId >= 0 && forall id :: id in chanMap[s].connections ==> 1 <= id <= chanMap[s].countId
  }

  /** The id the next connection of a session gets: one past its counter, 1 for a new session. */
  function NextId(chanMap: ChanMap, s: string): nat
  {
    (if s in chanMap then chanMap[s].countId else 0) + 1
  }

  /** The open connections of a session, none for an unknown one. */
  function Connections(chanMap: ChanMap, s: string): set<nat>
  {
    if s in chanMap then chanMap[s].connections else {}
  }

  /** A new connection of `s`: its entry is created if missing, the counter moves on, and
      the new id joins the open ones. */
  function AddConnection(chanMap: ChanMap, s: string): (r: ChanMap)
    ensures r.Keys == chanMap.Keys + {s}
    ensures r[s] == ConnectionMap(Connections(chanMap, s) + {NextId(chanMap, s)}, NextId(chanMap, s))
    ensures forall x :: x in chanMap && x != s ==> r[x] == chanMap[x]
  {
    var entry := if s in chanMap then chanMap[s] else ConnectionMap({}, 0);
    chanMap[s := ConnectionMap(entry.connections + {entry.countId + 1}, entry.countId + 1)]
  }

  /** The cleanup of connection `id` of `s`: only that id is dropped; the entry and its
      counter stay, even once no connection is left. */
  function RemoveConnection(chanMap: ChanMap, s: string, id: nat): (r: ChanMap)
    ensures r.Keys == chanMap.Keys
    ensures s in chanMap ==> r[s] == chanMap[s].(connections := chanMap[s].connections - {id})
    ensures forall x :: x in chanMap && x != s ==> r[x] == chanMap[x]
  {
    if s in chanMap then chanMap[s := chanMap[s].(connections := chanMap[s].connections - {id})] else chanMap
  }

  /** Ids start at 1, and the id a connection gets was never given to an earlier one:
      it is above every open id, and opening then closing connections keeps it fresh. */
  lemma NewIdIsFresh(chanMap: ChanMap, s: string)
    requires WellNumbered(chanMap)
    ensures WellNumbered(AddConnection(chanMap, s))
    ensures s !in chanMap ==> NextId(chanMap, s) == 1
    ensures forall id :: id in Connections(chanMap, s) ==> id < NextId(chanMap, s)
    ensures NextId(AddConnection(chanMap, s), s) == NextId(chanMap, s) + 1
  {
  }

  /** Closing a connection keeps the numbering and never lowers the next id, so a
      closed id is not handed out again. */
  lemma ClosedIdNeverReissued(chanMap: ChanMap, s: string, id: nat)
    requires WellNumbered(chanMap) && id in Connections(chanMap, s)
    ensures WellNumbered(RemoveConnection(chanMap, s, id))
    ensures id !in Connections(RemoveConnection(chanMap, s, id), s)
    ensures NextId(RemoveConnection(chanMap, s, id), s) > id
  {
  }

  /** One message sent on each listed connection of `s`, in list order. */
  function DeliverAll(s: string, order: seq<nat>, msg: MessageUpdate): (ds: seq<Delivery>)
    ensures |ds| == |order|
    ensures forall k :: 0 <= k < |order| ==> ds[k] == Delivery(s, order[k], msg)
  {
    if order == [] then [] else DeliverAll(s, order[..|order| - 1], msg) + [Delivery(s, order[|order| - 1], msg)]
  }

  /** What `SendMessageToSession` sends for `s`, given the order its loop visits the
      connections in: nothing for an unknown session. */
  function SessionDeliveries(chanMap: ChanMap, s: string, order: seq<nat>, msg: MessageUpdate): seq<Delivery>
  {
    if s in chanMap then DeliverAll(s, order, msg) else []
  }

  /** What `SendMessageToSessions` sends: each listed session's deliveries, in list order. */
  function Fanout(chanMap: ChanMap, ids: seq<string>, orders: seq<seq<nat>>, msg: MessageUpdate): seq<Delivery>
    requires |orders| == |ids|
  {
    if ids == [] then []
    else
      var n := |ids| - 1;
      Fanout(chanMap, ids[..n], orders[..n], msg) + SessionDeliveries(chanMap, ids[n], orders[n], msg)
  }

  /** The fan-out of a concatenation is the concatenation of the fan-outs. */
  lemma {:induction false} FanoutAppend(chanMap: ChanMap, ids: seq<string>, orders: seq<seq<nat>>,
                                        ids': seq<string>, orders': seq<seq<nat>>, msg: MessageUpdate)
    requires |orders| == |ids| && |orders'| == |ids'|
    ensures Fanout(chanMap, ids + ids', orders + orders', msg) ==
            Fanout(chanMap, ids, orders, msg) + Fanout(chanMap, ids', orders', msg)
  {
    if ids' == [] {
      assert ids + ids' == ids && orders + orders' == orders;
    } else {
      var n := |ids'| - 1;
      FanoutAppend(chanMap, ids, orders, ids'[..n], orders'[..n], msg);
      AppendInit(ids, ids');
      AppendInit(orders, orders');
      ConcatAssoc(Fanout(chanMap, ids, orders, msg), Fanout(chanMap, ids'[..n], orders'[..n], msg),
                  SessionDeliveries(chanMap, ids'[n], orders'[n], msg));
    }
  }

  /** One more listed session adds its deliveries at the end. */
  lemma FanoutSnoc(chanMap: ChanMap, ids: seq<string>, orders: seq<seq<nat>>, s: string, order: seq<nat>,
                   msg: MessageUpdate)
    requires |orders| == |ids|
    ensures Fanout(chanMap, ids + [s], orders + [order], msg) ==
            Fanout(chanMap, ids, orders, msg) + SessionDeliveries(chanMap, s, order, msg)
  {
    AppendInit(ids, [s]);
    AppendInit(orders, [order]);
  }

  /** A session listed twice is sent the message twice on every one of its connections. */
  lemma RepeatedSessionDeliveredTwice(chanMap: ChanMap, s: string, first: seq<nat>, second: seq<nat>,
                                      msg: MessageUpdate)
    requires s in chanMap
    requires Enumerates(first, chanMap[s].connections) && Enumerates(second, chanMap[s].connections)
    ensures Fanout(chanMap, [s, s], [first, second], msg) == DeliverAll(s, first, msg) + DeliverAll(s, second, msg)
    ensures |Fanout(chanMap, [s, s], [first, second], msg)| == 2 * |chanMap[s].connections|
  {
    FanoutTwice(chanMap, s, first, second, msg);
    EnumerationLength(first, chanMap[s].connections);
    EnumerationLength(second, chanMap[s].connections);
  }

  /** The fan-out to the same known session twice, whatever the two visiting orders. */
  lemma FanoutTwice(chanMap: ChanMap, s: string, first: seq<nat>, second: seq<nat>, msg: MessageUpdate)
    requires s in chanMap
    ensures Fanout(chanMap, [s, s], [first, second], msg) == DeliverAll(s, first, msg) + DeliverAll(s, second, msg)
  {
    var ids, orders := [s, s], [first, second];
    assert ids[..1] == [s] && orders[..1] == [first];
    assert [s][..0] == [] && [first][..0] == [];
    calc {
      Fanout(chanMap, ids, orders, msg);
      Fanout(chanMap, [s], [first], msg) + SessionDeliveries(chanMap, s, second, msg);
      Fanout(chanMap, [], [], msg) + SessionDeliveries(chanMap, s, first, msg) + DeliverAll(s, second, msg);
    }
  }

  /** A fan-out over enumerated connection sets holds exactly one kind of delivery: the
      message, to a listed session, on one of that session's connections. */
  lemma {:induction false} FanoutMembers(chanMap: ChanMap, ids: seq<string>, orders: seq<seq<nat>>,
                                         msg: MessageUpdate, d: Delivery)
    requires |orders| == |ids|
    requires forall i :: 0 <= i < |ids| ==> Enumerates(orders[i], Connections(chanMap, ids[i]))
    ensures d in Fanout(chanMap, ids, orders, msg) <==>
              d.msg == msg && d.sessionId in ids && d.connId in Connections(chanMap, d.sessionId)
  {
    if ids != [] {
      var n := |ids| - 1;
      FanoutMembers(chanMap, ids[..n], orders[..n], msg, d);
      assert ids == ids[..n] + [ids[n]];
      if d in SessionDeliveries(chanMap, ids[n], orders[n], msg) {
        var k :| 0 <= k < |orders[n]| && DeliverAll(ids[n], orders[n], msg)[k] == d;
      }
      if d.msg == msg && d.sessionId == ids[n] && d.connId in Connections(chanMap, d.sessionId) {
        var k :| 0 <= k < |orders[n]| && orders[n][k] == d.connId;
        assert DeliverAll(ids[n], orders[n], msg)[k] == d;
      }
    }
  }

  /** The loop of `SendMessageToSession`: one send per connection, in map order. */
  method DeliverEach(s: string, connections: set<nat>, msg: MessageUpdate) returns (order: seq<nat>, sent: seq<Delivery>)
    ensures Enumerates(order, connections)
    ensures sent == DeliverAll(s, order, msg)
  {
    var rest := connections;
    order, sent := [], [];
    while rest != {}
      invariant rest <= connections
      invariant Enumerates(order, connections - rest)
      invariant sent == DeliverAll(s, order, msg)
      decreases rest
    {
      var id :| id in rest;
      DistinctAppend(order, id);
      sent := sent + [Delivery(s, id, msg)];
      rest := rest - {id};
      order := order + [id];
    }
    assert connections - rest == connections;
  }

  /** One more session's enumeration extends the enumerations of the sessions before it. */
  lemma EnumeratesSnoc(chanMap: ChanMap, ids: seq<string>, i: nat, orders: seq<seq<nat>>, order: seq<nat>)
    requires i < |ids| && |orders| == i
    requires forall j :: 0 <= j < i ==> Enumerates(orders[j], Connections(chanMap, ids[j]))
    requires Enumerates(order, Connections(chanMap, ids[i]))
    ensures forall j :: 0 <= j < i + 1 ==> Enumerates((orders + [order])[j], Connections(chanMap, ids[j]))
  {
    forall j | 0 <= j < i + 1
      ensures Enumerates((orders + [order])[j], Connections(chanMap, ids[j]))
    {
      if j < i {
        assert (orders + [order])[j] == orders[j];
      }
    }
  }

  /** The loop of `SendMessageToSessions`: each listed session's sends in turn, in list
      order, as `SendMessageToSession` makes them. */
  method FanoutEach(chanMap: ChanMap, sessionIds: seq<string>, msg: MessageUpdate)
      returns (ghost orders: seq<seq<nat>>, sent: seq<Delivery>)
    ensures |orders| == |sessionIds|
    ensures forall i :: 0 <= i < |sessionIds| ==> Enumerates(orders[i], Connections(chanMap, sessionIds[i]))
    ensures sent == Fanout(chanMap, sessionIds, orders, msg)
  {
    orders, sent := [], [];
    for i := 0 to |sessionIds|
      invariant |orders| == i
      invariant forall j :: 0 <= j < i ==> Enumerates(orders[j], Connections(chanMap, sessionIds[j]))
      invariant sent == Fanout(chanMap, sessionIds[..i], orders, msg)
    {
      var s := sessionIds[i];
      var order: seq<nat>, ds: seq<Delivery> := [], [];
      if s in chanMap {
        order, ds := DeliverEach(s, chanMap[s].connections, msg);
      }
      assert Enumerates(order, Connections(chanMap, s)) && ds == SessionDeliveries(chanMap, s, order, msg);
      EnumeratesSnoc(chanMap, sessionIds, i, orders, order);
      assert sessionIds[..i + 1] == sessionIds[..i] + [s];
      FanoutSnoc(chanMap, sessionIds[..i], orders, s, order, msg);
      sent := sent + ds;
      orders := orders + [order];
    }
    assert sessionIds[..|sessionIds|] == sessionIds;
  }

  class WSServer {
    var chanMap: ChanMap
    var hubCalls: seq<HubCall>
    var deliveries: seq<Delivery>

    ghost predicate Valid()
      reads this
    {
      WellNumbered(chanMap)
    }

    /** `NewWSServer`: no session yet. */
    constructor ()
      ensures Valid() && chanMap == map[] && hubCalls == [] && deliveries == []
    {
      chanMap, hubCalls, deliveries := map[], [], [];
    }

    /** The set-up part of `wsHandler`: an empty id is refused, a failed upgrade ends the
        request, and otherwise the connection gets the session's next id and the session
        is added to the message hub. */
    method Connect(sessionId: string, upgradeFails: bool) returns (outcome: ConnectOutcome)
      requires Valid()
      modifies this
      ensures Valid()
      ensures sessionId == "" ==> outcome == BadRequest
      ensures sessionId != "" && upgradeFails ==> outcome == UpgradeFailed
      ensures outcome.Connected? <==> sessionId != "" && !upgradeFails
      ensures !outcome.Connected? ==> chanMap == old(chanMap) && hubCalls == old(hubCalls)
      ensures outcome.Connected? ==>
                outcome.connId == NextId(old(chanMap), sessionId) &&
                chanMap == AddConnection(old(chanMap), sessionId) &&
                hubCalls == old(hubCalls) + [AddSession(sessionId)]
      ensures deliveries == old(deliveries)
    {
      if sessionId == "" {
        return BadRequest;
      }
      if upgradeFails {
        return UpgradeFailed;
      }
      NewIdIsFresh(chanMap, sessionId);
      var entry := if sessionId in chanMap then chanMap[sessionId] else ConnectionMap({}, 0);
      var wsConnectionId := entry.countId + 1;
      chanMap := chanMap[sessionId := ConnectionMap(entry.connections + {wsConnectionId}, wsConnectionId)];
      hubCalls := hubCalls + [AddSession(sessionId)];
      outcome := Connected(wsConnectionId);
    }

    /** The clean-up part of `wsHandler`: the closing connection's id is dropped, and the
        session is removed from the hub exactly when none of its connections is left. */
    method Disconnect(sessionId: string, connId: nat)
      requires Valid()
      modifies this
      ensures Valid()
      ensures chanMap == RemoveConnection(old(chanMap), sessionId, connId)
      ensures hubCalls == old(hubCalls) +
                (if sessionId in chanMap && chanMap[sessionId].connections == {} then [RemoveSession(sessionId)] else [])
      ensures deliveries == old(deliveries)
    {
      if sessionId in chanMap {
        chanMap := chanMap[sessionId := chanMap[sessionId].(connections := chanMap[sessionId].connections - {connId})];
        if chanMap[sessionId].connections == {} {
          hubCalls := hubCalls + [RemoveSession(sessionId)];
        }
      }
    }

    /** `SendMessageToSession`: nothing for an unknown session; otherwise the message is
        sent once on each of its connections (in map order, returned as `order`). */
    method SendMessageToSession(sessionId: string, msg: MessageUpdate) returns (ghost order: seq<nat>)
      modifies this
      ensures chanMap == old(chanMap) && hubCalls == old(hubCalls)
      ensures Enumerates(order, Connections(chanMap, sessionId))
      ensures deliveries == old(deliveries) + SessionDeliveries(chanMap, sessionId, order, msg)
    {
      if sessionId !in chanMap {
        return [];
      }
      var sent;
      order, sent := DeliverEach(sessionId, chanMap[sessionId].connections, msg);
      deliveries := deliveries + sent;
    }

    /** `SendMessageToSessions`: each listed session in turn, so a session listed twice
        receives the message twice. */
    method SendMessageToSessions(sessionIds: seq<string>, msg: MessageUpdate) returns (ghost orders: seq<seq<nat>>)
      modifies this
      ensures chanMap == old(chanMap) && hubCalls == old(hubCalls)
      ensures |orders| == |sessionIds|
      ensures forall i :: 0 <= i < |sessionIds| ==> Enumerates(orders[i], Connections(chanMap, sessionIds[i]))
      ensures deliveries == old(deliveries) + Fanout(chanMap, sessionIds, orders, msg)
    {
      var sent;
      orders, sent := FanoutEach(chanMap, sessionIds, msg);
      deliveries := deliveries + sent;
    }
  }
}
