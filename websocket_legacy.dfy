// aya-backend/socket/websocket.go: the first websocket server. Each session
// id owns at most one message channel; a new connection for an id replaces
// the stored channel, and when a connection's write loop ends the id is
// deleted, whichever channel is stored for it by then. Channels are modelled
// by number (each `make(chan ...)` is a fresh one); the origin check is the
// one of module Websocket, over an origin list holding only the website's.

module WebsocketLegacy {
  import opened Common
  import Websocket

  /** The origins the server accepts: the package-level list starts empty and gets the
      website origin from the environment, when it is set. */
  lemma LegacyOriginCheck(origin: seq<string>, parseHost: string -> Option<string>, websiteOrigin: string)
    ensures Websocket.CheckOrigin(origin, parseHost, Websocket.AddWebsiteOrigin([], websiteOrigin)) <==>
              origin == [] ||
              (parseHost(origin[0]).Some? && websiteOrigin != "" && Websocket.FoldEq(parseHost(origin[0]).value, websiteOrigin))
  {
    var acceptable := Websocket.AddWebsiteOrigin([], websiteOrigin);
    if origin != [] && parseHost(origin[0]).Some? && websiteOrigin != "" {
      assert acceptable[0] == websiteOrigin;
    }
  }

  /** The map after a connection for `id` stored its channel `ch` (lines 40-43). */
  function Attach(chanMap: map<string, nat>, id: string, ch: nat): (m: map<string, nat>)
    ensures m.Keys == chanMap.Keys + {id} && m[id] == ch
    ensures forall other :: other in chanMap && other != id ==> other in m && m[other] == chanMap[other]
  {
    chanMap[id := ch]
  }

  /** The map after the connection `ch` of `id` ended, as written (lines 45-48): the id
      is gone even when a newer connection's channel is the one stored. */
  function Detach(chanMap: map<string, nat>, id: string, ch: nat): (m: map<string, nat>)
    ensures m.Keys == chanMap.Keys - {id}
    ensures forall other :: other in m ==> m[other] == chanMap[other]
  {
    chanMap - {id}
  }

  /** The map after the connection `ch` of `id` ended, deleting the id only when `ch` is
      still the channel stored for it. */
  function DetachCorrected(chanMap: map<string, nat>, id: string, ch: nat): (m: map<string, nat>)
    ensures id in chanMap && chanMap[id] == ch ==> m == chanMap - {id}
    ensures !(id in chanMap && chanMap[id] == ch) ==> m == chanMap
  {
    if id in chanMap && chanMap[id] == ch then chanMap - {id} else chanMap
  }

  /** Two connections for one id, the first ends: as written the id loses the second
      connection's channel, so nothing more reaches the open connection; the corrected
      detach keeps it. */
  lemma StaleCloseDropsCurrentChannel()
    ensures var m := Attach(Attach(map[], "s", 0), "s", 1);
            "s" !in Detach(m, "s", 0) && DetachCorrected(m, "s", 0) == m && m["s"] == 1
  {
  }

  class WSServer {
    /** `ChanMap`: the channel stored for each id. */
    var chanMap: map<string, nat>
    /** The open connections, by their channel, with the id each was opened for. */
    var open: map<nat, string>
    /** The number of channels made so far. */
    var made: nat

    /** Every stored channel belongs to an open connection for that id; every channel
        was made before. */
    ghost predicate Valid()
      reads this
    {
      (forall id :: id in chanMap ==> chanMap[id] in open && open[chanMap[id]] == id) &&
      (forall ch :: ch in open ==> ch < made)
    }

    /** `NewWSServer`: no channel stored, no connection. */
    constructor ()
      ensures Valid() && chanMap == map[] && open == map[] && made == 0
    {
      chanMap, open, made := map[], map[], 0;
    }

    /** `handleWSConn` up to its write loop: a failed upgrade changes nothing; otherwise a
        fresh channel is made and stored for the id, replacing any earlier one (whose
        connection stays open). No id, not even the empty one, is refused. */
    method Connect(id: string, upgradeFails: bool) returns (ch: Option<nat>)
      requires Valid()
      modifies this
      ensures Valid()
      ensures upgradeFails ==> ch == None && chanMap == old(chanMap) && open == old(open) && made == old(made)
      ensures !upgradeFails ==>
                ch == Some(old(made)) && old(made) !in old(open) &&
                chanMap == Attach(old(chanMap), id, old(made)) &&
                open == old(open)[old(made) := id] && made == old(made) + 1
    {
      if upgradeFails {
        return None;
      }
      var msgChannel := made;
      made := made + 1;
      if id in chanMap {
        chanMap := chanMap - {id};
      }
      chanMap := chanMap[id := msgChannel];
      open := open[msgChannel := id];
      ch := Some(msgChannel);
    }

    /** The deferred clean-up when the write loop of connection `ch` ends: the connection
        closes and its id is deleted from the map. */
    method Disconnect(ch: nat)
      requires Valid() && ch in open
      modifies this
      ensures Valid()
      ensures chanMap == Detach(old(chanMap), old(open)[ch], ch)
      ensures open == old(open) - {ch} && made == old(made)
    {
      var id := open[ch];
      open := open - {ch};
      chanMap := chanMap - {id};
    }

    /** The clean-up as evidently intended: the id is deleted only when the ending
        connection's channel is still the one stored, so every other stored channel,
        in particular a newer connection's for the same id, stays. */
    method DisconnectCorrected(ch: nat)
      requires Valid() && ch in open
      modifies this
      ensures Valid()
      ensures chanMap == DetachCorrected(old(chanMap), old(open)[ch], ch)
      ensures forall id :: id in old(chanMap) && old(chanMap)[id] != ch ==> id in chanMap && chanMap[id] == old(chanMap)[id]
      ensures open == old(open) - {ch} && made == old(made)
    {
      var id := open[ch];
      open := open - {ch};
      if id in chanMap && chanMap[id] == ch {
        chanMap := chanMap - {id};
      }
    }
  }
}
