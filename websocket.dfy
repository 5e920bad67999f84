// aya-backend/server/socket/websocket.go: the websocket server of the older
// backend. The origin check compares the Origin header's host with the
// acceptable origins up to ASCII case; the connection bookkeeping is the same
// as in the newest server (module WebsocketWs), but registering a session
// adds each of its stored resources to the message hub and registers them
// with the emitter, and the clean-up sits in a close handler. The websocket
// library runs that handler only while reading, and the connection handler
// never reads, so the clean-up never runs: a connection whose writer has ended
// stays in the map and its session stays registered. Strings are sequences of
// runes (UTF-8 decoding is not modelled); `url.Parse` and the database lookup
// of a session's resources are inputs.

module Websocket {
  import opened Common
  import opened ChatMessage
  import opened WebsocketWs

  // ----- equalASCIIFold -----

  /** A rune with A-Z mapped to a-z; every other rune unchanged. */
  function Lower(r: char): (l: char)
    ensures 'A' <= r <= 'Z' ==> l as int == r as int + ('a' as int - 'A' as int)
    ensures !('A' <= r <= 'Z') ==> l == r
  {
    if 'A' <= r <= 'Z' then (r as int + ('a' as int - 'A' as int)) as char else r
  }

  /** What the loop of `equalASCIIFold` decides: it walks both strings rune by rune
      while both have runes left, and stops with the answer "both ran out". */
  predicate FoldEq(s: string, t: string)
  {
    if s == [] || t == [] then s == t
    else Lower(s[0]) == Lower(t[0]) && FoldEq(s[1..], t[1..])
  }

  /** The strings are fold-equal exactly when they have the same length and agree rune
      by rune once A-Z is mapped to a-z. */
  lemma {:induction false} FoldEqPointwise(s: string, t: string)
    ensures FoldEq(s, t) <==> |s| == |t| && forall i :: 0 <= i < |s| ==> Lower(s[i]) == Lower(t[i])
  {
    if s != [] && t != [] {
      FoldEqPointwise(s[1..], t[1..]);
      if |s| == |t| && forall i :: 0 <= i < |s| ==> Lower(s[i]) == Lower(t[i]) {
        forall i | 0 <= i < |s| - 1 ensures Lower(s[1..][i]) == Lower(t[1..][i]) {
          assert Lower(s[i + 1]) == Lower(t[i + 1]);
        }
      }
    }
  }

  /** Fold-equality is reflexive and symmetric, and an empty string equals only the empty string. */
  lemma FoldEqProperties(s: string, t: string)
    ensures FoldEq(s, s)
    ensures FoldEq(s, t) == FoldEq(t, s)
    ensures s == [] && t != [] ==> !FoldEq(s, t)
  {
    FoldEqPointwise(s, s);
    FoldEqPointwise(s, t);
    FoldEqPointwise(t, s);
  }

  /** `equalASCIIFold`: the loop consumes a rune of each string per round; an identical
      pair, or one equal after folding A-Z, goes on, another pair answers false, and
      when a string runs out the answer is whether both did. */
  method EqualASCIIFold(s0: string, t0: string) returns (equal: bool)
    ensures equal == FoldEq(s0, t0)
  {
    var s, t := s0, t0;
    while s != "" && t != ""
      invariant FoldEq(s0, t0) == FoldEq(s, t)
      decreases |s|
    {
      var sr := s[0];
      s := s[1..];
      var tr := t[0];
      t := t[1..];
      if sr == tr {
        continue;
      }
      if 'A' <= sr <= 'Z' {
        sr := (sr as int + ('a' as int - 'A' as int)) as char;
      }
      if 'A' <= tr <= 'Z' {
        tr := (tr as int + ('a' as int - 'A' as int)) as char;
      }
      if sr != tr {
        return false;
      }
    }
    return s == t;
  }

  // ----- CheckOrigin -----

  /** Some acceptable origin is fold-equal to `host` (`slices.ContainsFunc`). */
  predicate AnyFoldEq(acceptable: seq<string>, host: string)
  {
    exists i :: 0 <= i < |acceptable| && FoldEq(host, acceptable[i])
  }

  /** The Upgrader's `CheckOrigin`: a request without an Origin header is accepted, one
      whose first Origin value does not parse is refused, and otherwise the parsed
      host must fold-equal an acceptable origin. `parseHost` is `url.Parse` followed by
      taking `Host`. */
  function CheckOrigin(origin: seq<string>, parseHost: string -> Option<string>, acceptable: seq<string>): (ok: bool)
    ensures origin == [] ==> ok
    ensures origin != [] && parseHost(origin[0]).None? ==> !ok
    ensures origin != [] && parseHost(origin[0]).Some? ==> (ok <==> AnyFoldEq(acceptable, parseHost(origin[0]).value))
  {
    if |origin| == 0 then true
    else
      var u := parseHost(origin[0]);
      if u.None? then false else AnyFoldEq(acceptable, u.value)
  }

  /** An acceptable origin differing from the host only in ASCII case admits the request. */
  lemma CaseInsensitiveOrigin(origin: seq<string>, parseHost: string -> Option<string>, acceptable: seq<string>, i: nat)
    requires origin != [] && parseHost(origin[0]).Some? && i < |acceptable|
    requires |acceptable[i]| == |parseHost(origin[0]).value|
    requires forall k :: 0 <= k < |acceptable[i]| ==> Lower(acceptable[i][k]) == Lower(parseHost(origin[0]).value[k])
    ensures CheckOrigin(origin, parseHost, acceptable)
  {
    FoldEqPointwise(parseHost(origin[0]).value, acceptable[i]);
  }

  /** `NewWSServer` appends the website origin from the environment, when it is set. */
  function AddWebsiteOrigin(acceptable: seq<string>, websiteOrigin: string): (r: seq<string>)
    ensures websiteOrigin == "" ==> r == acceptable
    ensures websiteOrigin != "" ==> r == acceptable + [websiteOrigin]
  {
    if websiteOrigin != "" then acceptable + [websiteOrigin] else acceptable
  }

  // ----- connections -----

  /** The calls registering and deregistering a session make on the hub and the emitter. */
  datatype SessionCall =
    | HubAdd(sessionId: string, resource: Resource)
    | EmitterRegister(resources: seq<Resource>)
    | HubRemove(sessionId: string)
    | EmitterDeregister(resources: seq<Resource>)

  /** `registerSessionForMessages`: each stored resource added to the hub, in order, then
      all of them registered with the emitter at once. */
  function RegistrationCalls(s: string, resources: seq<Resource>): (calls: seq<SessionCall>)
    ensures |calls| == |resources| + 1 && calls[|resources|] == EmitterRegister(resources)
    ensures forall i :: 0 <= i < |resources| ==> calls[i] == HubAdd(s, resources[i])
  {
    seq(|resources|, i requires 0 <= i < |resources| => HubAdd(s, resources[i])) + [EmitterRegister(resources)]
  }

  /** The loop of `registerSessionForMessages`. */
  method RegisterSessionForMessages(s: string, resources: seq<Resource>) returns (calls: seq<SessionCall>)
    ensures calls == RegistrationCalls(s, resources)
  {
    calls := [];
    for i := 0 to |resources|
      invariant calls == seq(i, k requires 0 <= k < i => HubAdd(s, resources[k]))
    {
      calls := calls + [HubAdd(s, resources[i])];
    }
    calls := calls + [EmitterRegister(resources)];
  }

  class WSServer {
    var chanMap: ChanMap
    var sessionCalls: seq<SessionCall>
    var deliveries: seq<Delivery>
    /** The connections whose writer loop has ended. */
    ghost var writersGone: set<(string, nat)>

    ghost predicate Valid()
      reads this
    {
      WellNumbered(chanMap)
    }

    /** `NewWSServer`: no session yet. */
    constructor ()
      ensures Valid() && chanMap == map[] && sessionCalls == [] && deliveries == [] && writersGone == {}
    {
      chanMap, sessionCalls, deliveries := map[], [], [];
      writersGone := {};
    }

    /** The set-up part of `handleWSConn`: an empty id is refused, a failed upgrade ends
        the request, and otherwise the connection gets the session's next id and the
        session's stored resources (`resources`) are registered again. */
    method Connect(sessionId: string, upgradeFails: bool, resources: seq<Resource>) returns (outcome: ConnectOutcome)
      requires Valid()
      modifies this
      ensures Valid()
      ensures sessionId == "" ==> outcome == BadRequest
      ensures sessionId != "" && upgradeFails ==> outcome == UpgradeFailed
      ensures outcome.Connected? <==> sessionId != "" && !upgradeFails
      ensures !outcome.Connected? ==> chanMap == old(chanMap) && sessionCalls == old(sessionCalls)
      ensures outcome.Connected? ==>
                outcome.connId == NextId(old(chanMap), sessionId) &&
                chanMap == AddConnection(old(chanMap), sessionId) &&
                sessionCalls == old(sessionCalls) + RegistrationCalls(sessionId, resources)
      ensures deliveries == old(deliveries) && writersGone == old(writersGone)
    {
      if sessionId == "" {
        return BadRequest;
      }
      if upgradeFails {
        return UpgradeFailed;
      }
      NewIdIsFresh(chanMap, sessionId);
      var entry := if sessionId in chanMap then chanMap[sessionId] else ConnectionMap({}, 0);
      var wsConnectionId := entry.countId + 1;
      chanMap := chanMap[sessionId := ConnectionMap(entry.connections + {wsConnectionId}, wsConnectionId)];
      var calls := RegisterSessionForMessages(sessionId, resources);
      sessionCalls := sessionCalls + calls;
      outcome := Connected(wsConnectionId);
    }

    /** The close handler as registered: the closing connection's id is dropped, and once
        none of the session's connections is left the session is removed from the hub
        and its stored resources (`resources`) are deregistered from the emitter. Nothing
        in the server ever invokes it (see `WriterExits`). */
    method OnClose(sessionId: string, connId: nat, resources: seq<Resource>)
      requires Valid()
      modifies this
      ensures Valid()
      ensures chanMap == RemoveConnection(old(chanMap), sessionId, connId)
      ensures sessionCalls == old(sessionCalls) +
                (if sessionId in chanMap && chanMap[sessionId].connections == {}
                 then [HubRemove(sessionId), EmitterDeregister(resources)] else [])
      ensures deliveries == old(deliveries) && writersGone == old(writersGone)
    {
      if sessionId in chanMap {
        chanMap := chanMap[sessionId := chanMap[sessionId].(connections := chanMap[sessionId].connections - {connId})];
        if chanMap[sessionId].connections == {} {
          sessionCalls := sessionCalls + [HubRemove(sessionId), EmitterDeregister(resources)];
        }
      }
    }

    /** The end of `handleWSConn`: a failed write breaks the writer loop and the deferred
        `Close` closes the connection. No read is ever made, so the close handler does
        not run: the connection stays listed under its session, the session stays with
        the hub and the emitter, and nothing reads its message channel any more. */
    method WriterExits(sessionId: string, connId: nat)
      requires Valid()
      modifies this
      ensures Valid()
      ensures chanMap == old(chanMap) && sessionCalls == old(sessionCalls) && deliveries == old(deliveries)
      ensures writersGone == old(writersGone) + {(sessionId, connId)}
      ensures connId in old(Connections(chanMap, sessionId)) ==> connId in Connections(chanMap, sessionId)
    {
      writersGone := writersGone + {(sessionId, connId)};
    }

    /** `SendMessageToSession`: nothing for an unknown session; otherwise the message is
        sent once on each of its connections (in map order, returned as `order`). */
    method SendMessageToSession(sessionId: string, msg: MessageUpdate) returns (ghost order: seq<nat>)
      modifies this
      ensures chanMap == old(chanMap) && sessionCalls == old(sessionCalls)
      ensures Enumerates(order, Connections(chanMap, sessionId))
      ensures deliveries == old(deliveries) + SessionDeliveries(chanMap, sessionId, order, msg)
      ensures writersGone == old(writersGone)
    {
      if sessionId !in chanMap {
        return [];
      }
      var sent;
      order, sent := DeliverEach(sessionId, chanMap[sessionId].connections, msg);
      deliveries := deliveries + sent;
    }

    /** `SendMessageToSessions`: each listed session in turn, in list order. */
    method SendMessageToSessions(sessionIds: seq<string>, msg: MessageUpdate) returns (ghost orders: seq<seq<nat>>)
      modifies this
      ensures chanMap == old(chanMap) && sessionCalls == old(sessionCalls)
      ensures |orders| == |sessionIds|
      ensures forall i :: 0 <= i < |sessionIds| ==> Enumerates(orders[i], Connections(chanMap, sessionIds[i]))
      ensures deliveries == old(deliveries) + Fanout(chanMap, sessionIds, orders, msg)
      ensures writersGone == old(writersGone)
    {
      var sent;
      orders, sent := FanoutEach(chanMap, sessionIds, msg);
      deliveries := deliveries + sent;
    }
  }
}
