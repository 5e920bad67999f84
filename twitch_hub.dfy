// aya-backend/server-ws/hubs/twitch.go: the Twitch resource hub, which keeps
// which sessions watch which Twitch channel (both directions) and subscribes
// and unsubscribes them on the Twitch emitter as their channel lists change.
// The emitter is represented by the log of calls the hub makes on it.

module TwitchHub {
  import opened Common
  import opened ChatMessage
  import opened SessionIndex

  /** The channel names of a list of Twitch descriptors. */
  function ChannelNames(rs: seq<TwitchDescriptor>): set<string>
  {
    if rs == [] then {} else ChannelNames(rs[..|rs| - 1]) + {rs[|rs| - 1].twitchChannelName}
  }

  /** A name is collected exactly when a descriptor for it is listed. */
  lemma {:induction false} ChannelNamesMembers(rs: seq<TwitchDescriptor>)
    ensures forall c :: c in ChannelNames(rs) <==> TwitchInfo(c) in rs
  {
    if rs != [] {
      ChannelNamesMembers(rs[..|rs| - 1]);
      assert rs == rs[..|rs| - 1] + [rs[|rs| - 1]];
    }
  }

  /** What one more step of a loop over `rs` adds to the names and to the call log. */
  lemma PrefixStep(s: string, rs: seq<TwitchDescriptor>, i: nat)
    requires i < |rs|
    ensures ChannelNames(rs[..i + 1]) == ChannelNames(rs[..i]) + {rs[i].twitchChannelName}
    ensures DeregCalls(s, rs[..i + 1]) == DeregCalls(s, rs[..i]) + [Deregister(s, rs[i])]
    ensures RegCalls(s, rs[..i + 1]) == RegCalls(s, rs[..i]) + [Register(s, rs[i])]
    ensures i == 0 ==> ChannelNames(rs[..i]) == {}
  {
    assert rs[..i + 1] == rs[..i] + [rs[i]];
    assert rs[..i + 1][..i] == rs[..i];
    CallsSnoc(s, rs[..i], rs[i]);
  }

  /** The first loop of RegisterSessionResources: the set of wanted channel names. */
  method CollectChannelNames(resources: seq<TwitchDescriptor>) returns (names: set<string>)
    ensures names == ChannelNames(resources)
  {
    names := {};
    var k := 0;
    while k < |resources|
      invariant 0 <= k <= |resources|
      invariant names == ChannelNames(resources[..k])
    {
      assert resources[..k + 1][..k] == resources[..k];
      names := names + {resources[k].twitchChannelName};
      k := k + 1;
    }
    assert resources[..k] == resources;
  }

  /** `infos` names each channel of `rooms` exactly once. */
  ghost predicate ListsRooms(infos: seq<Info>, rooms: set<string>)
  {
    Distinct(infos) &&
    (forall i :: 0 <= i < |infos| ==> infos[i].TwitchInfo?) &&
    (forall c :: TwitchInfo(c) in infos <==> c in rooms)
  }

  /** Listing one more channel that was not listed yet. */
  lemma ListsRoomsAppend(infos: seq<Info>, rooms: set<string>, c: string)
    requires ListsRooms(infos, rooms) && c !in rooms
    ensures ListsRooms(infos + [TwitchInfo(c)], rooms + {c})
  {
    DistinctAppend(infos, TwitchInfo(c));
  }

  /** One round of LeaveAll's loop keeps its invariants. */
  lemma LeaveAllStep(r2s0: Index, s: string, rooms: set<string>, rest: set<string>, removed: seq<Info>, c: string)
    requires rest <= rooms && c in rest
    requires ListsRooms(removed, rooms - rest)
    ensures ListsRooms(removed + [TwitchInfo(c)], rooms - (rest - {c}))
    ensures DeregCalls(s, removed + [TwitchInfo(c)]) == DeregCalls(s, removed) + [Deregister(s, TwitchInfo(c))]
    ensures Unlink(Resubscribe(r2s0, s, rooms - rest, {}), c, s) == Resubscribe(r2s0, s, rooms - (rest - {c}), {})
  {
    LeaveStep(r2s0, s, rooms - rest, c);
    ListsRoomsAppend(removed, rooms - rest, c);
    CallsSnoc(s, removed, TwitchInfo(c));
    assert rooms - (rest - {c}) == (rooms - rest) + {c};
  }

  /** A list naming each channel of `rooms` once has one entry per channel, so a hub
      makes exactly as many emitter calls as there are channels to change. */
  lemma ListsRoomsCount(infos: seq<Info>, rooms: set<string>)
    requires ListsRooms(infos, rooms)
    ensures |infos| == |rooms|
  {
    var names := seq(|infos|, i requires 0 <= i < |infos| => infos[i].twitchChannelName);
    assert forall i :: 0 <= i < |infos| ==> infos[i] == TwitchInfo(names[i]);
    forall c ensures c in names <==> c in rooms {
      if c in names {
        var i :| 0 <= i < |names| && names[i] == c;
        assert infos[i] == TwitchInfo(c);
      }
    }
    EnumerationLength(names, rooms);
  }

  /** `diffTwitch`: the channels kept, dropped and newly wanted, each listed once. */
  method DiffTwitch(oldResources: set<string>, newResources: set<string>)
      returns (similar: seq<TwitchDescriptor>, remove: seq<TwitchDescriptor>, add: seq<TwitchDescriptor>)
    ensures ListsRooms(similar, oldResources * newResources)
    ensures ListsRooms(remove, oldResources - newResources)
    ensures ListsRooms(add, newResources - oldResources)
  {
    similar, remove, add := [], [], [];
    var rest := oldResources;
    while rest != {}
      invariant rest <= oldResources
      invariant ListsRooms(similar, (oldResources - rest) * newResources)
      invariant ListsRooms(remove, (oldResources - rest) - newResources)
      decreases rest
    {
      var c :| c in rest;
      if c !in newResources {
        DistinctAppend(remove, TwitchInfo(c));
        remove := remove + [TwitchInfo(c)];
      } else {
        DistinctAppend(similar, TwitchInfo(c));
        similar := similar + [TwitchInfo(c)];
      }
      rest := rest - {c};
    }
    rest := newResources;
    while rest != {}
      invariant rest <= newResources
      invariant ListsRooms(add, (newResources - rest) - oldResources)
      decreases rest
    {
      var c :| c in rest;
      if c !in oldResources {
        DistinctAppend(add, TwitchInfo(c));
        add := add + [TwitchInfo(c)];
      }
      rest := rest - {c};
    }
  }

  /** Registering a session for exactly the channels it already has lists nothing to
      deregister or register, makes no emitter call and leaves both directions as they were. */
  lemma RepeatIsNoop(r2s: Index, s2r: Index, s: string, newSet: set<string>, removed: seq<Info>, added: seq<Info>)
    requires Lookup(s2r, s) == newSet
    requires ListsRooms(removed, newSet - newSet) && ListsRooms(added, newSet - newSet)
    ensures removed == [] && added == []
    ensures DeregCalls(s, removed) + RegCalls(s, added) == []
    ensures Resubscribe(r2s, s, newSet - newSet, newSet - newSet) == r2s
    ensures Reassign(s2r, s, newSet, newSet - newSet != {}) == s2r
  {
    assert newSet - newSet == {};
    ListsRoomsCount(removed, {});
    ListsRoomsCount(added, {});
    ResubscribeNothing(r2s, s);
    ReassignSame(s2r, s);
  }

  class TwitchResourceHub {
    var channelName2Session: Index
    var session2ChannelName: Index
    /** The Register and Deregister calls made on the Twitch emitter, oldest first. */
    ghost var emitterCalls: seq<EmitterCall>

    ghost predicate Valid()
      reads this
    {
      Consistent(channelName2Session, session2ChannelName)
    }

    /** `NewTwitchResourceHub`: both directions empty. */
    constructor ()
      ensures Valid()
      ensures channelName2Session == map[] && session2ChannelName == map[] && emitterCalls == []
    {
      channelName2Session := map[];
      session2ChannelName := map[];
      emitterCalls := [];
    }

    /** `GetSessionId`: every session watching the channel, each once; nothing for a non-Twitch value. */
    method GetSessionId(resourceInfo: Info) returns (sessions: seq<string>)
      ensures !resourceInfo.TwitchInfo? ==> sessions == []
      ensures resourceInfo.TwitchInfo? ==>
                Enumerates(sessions, Lookup(channelName2Session, resourceInfo.twitchChannelName))
    {
      if !resourceInfo.TwitchInfo? {
        return [];
      }
      var name := resourceInfo.twitchChannelName;
      if name !in channelName2Session {
        return [];
      }
      var watchers := channelName2Session[name];
      var slots := new string[|watchers|](_ => "");
      var idx := 0;
      var rest := watchers;
      while rest != {}
        invariant rest <= watchers
        invariant idx + |rest| == slots.Length
        invariant Distinct(slots[..idx])
        invariant forall x :: x in slots[..idx] <==> x in watchers - rest
        decreases rest
      {
        var sessionId :| sessionId in rest;
        DistinctAppend(slots[..idx], sessionId);
        slots[idx] := sessionId;
        assert slots[..idx + 1] == slots[..idx] + [sessionId];
        idx := idx + 1;
        rest := rest - {sessionId};
      }
      assert slots[..idx] == slots[..];
      sessions := slots[..];
    }

    /** `RemoveSession` as written: the session leaves every channel and loses its entry,
        but the emitter is never told (see RemoveSessionDeregistering). */
    method RemoveSession(sessionId: string)
      requires Valid()
      modifies this
      ensures Valid()
      ensures channelName2Session ==
                Resubscribe(old(channelName2Session), sessionId, old(Lookup(session2ChannelName, sessionId)), {})
      ensures session2ChannelName == old(session2ChannelName) - {sessionId}
      ensures emitterCalls == old(emitterCalls)
    {
      ResubscribeNothing(channelName2Session, sessionId);
      if sessionId !in session2ChannelName {
        return;
      }
      var rooms := session2ChannelName[sessionId];
      var rest := rooms;
      while rest != {}
        invariant rest <= rooms
        invariant session2ChannelName == old(session2ChannelName) && emitterCalls == old(emitterCalls)
        invariant channelName2Session == Resubscribe(old(channelName2Session), sessionId, rooms - rest, {})
        decreases rest
      {
        var channelId :| channelId in rest;
        LeaveStep(old(channelName2Session), sessionId, rooms - rest, channelId);
        channelName2Session := Unlink(channelName2Session, channelId, sessionId);
        assert rooms - (rest - {channelId}) == (rooms - rest) + {channelId};
        rest := rest - {channelId};
      }
      assert rooms - rest == Lookup(old(session2ChannelName), sessionId);
      session2ChannelName := session2ChannelName - {sessionId};
      DropKeepsConsistent(old(channelName2Session), old(session2ChannelName), sessionId);
    }

    /** RemoveSession as intended: every channel the session leaves is also deregistered
        on the emitter, once, before the session's entry is dropped. */
    method RemoveSessionDeregistering(sessionId: string) returns (ghost removed: seq<Info>)
      requires Valid()
      modifies this
      ensures Valid()
      ensures ListsRooms(removed, old(Lookup(session2ChannelName, sessionId)))
      ensures emitterCalls == old(emitterCalls) + DeregCalls(sessionId, removed)
      ensures channelName2Session ==
                Resubscribe(old(channelName2Session), sessionId, old(Lookup(session2ChannelName, sessionId)), {})
      ensures session2ChannelName == old(session2ChannelName) - {sessionId}
    {
      removed := [];
      ResubscribeNothing(channelName2Session, sessionId);
      if sessionId !in session2ChannelName {
        return;
      }
      removed := LeaveAll(sessionId, session2ChannelName[sessionId]);
      session2ChannelName := session2ChannelName - {sessionId};
      DropKeepsConsistent(old(channelName2Session), old(session2ChannelName), sessionId);
    }

    /** The loop of RemoveSessionDeregistering: leave each of `rooms` and deregister it on the emitter. */
    method LeaveAll(sessionId: string, rooms: set<string>) returns (ghost removed: seq<Info>)
      modifies this
      ensures ListsRooms(removed, rooms)
      ensures emitterCalls == old(emitterCalls) + DeregCalls(sessionId, removed)
      ensures channelName2Session == Resubscribe(old(channelName2Session), sessionId, rooms, {})
      ensures session2ChannelName == old(session2ChannelName)
    {
      removed := [];
      ghost var calls0, calls := emitterCalls, emitterCalls;
      var index0, index := channelName2Session, channelName2Session;
      ResubscribeNothing(index0, sessionId);
      var rest := rooms;
      while rest != {}
        invariant rest <= rooms
        invariant ListsRooms(removed, rooms - rest)
        invariant unchanged(this)
        invariant calls == calls0 + DeregCalls(sessionId, removed)
        invariant index == Resubscribe(index0, sessionId, rooms - rest, {})
        decreases rest
      {
        var channelId :| channelId in rest;
        var info := TwitchInfo(channelId);
        LeaveAllStep(index0, sessionId, rooms, rest, removed, channelId);
        calls := calls + [Deregister(sessionId, info)];
        removed := removed + [info];
        index := Unlink(index, channelId, sessionId);
        rest := rest - {channelId};
      }
      assert rooms - rest == rooms;
      emitterCalls, channelName2Session := calls, index;
    }

    /** `AddSession`: takes the lock and changes nothing. */
    method AddSession(sessionId: string)
      ensures unchanged(this)
    {
    }

    /** `RegisterSessionResources`: the session's channel set becomes exactly the listed
        channels. Each dropped channel is deregistered on the emitter once, then each new
        channel is registered once; channels kept cause no call. */
    method RegisterSessionResources(sessionId: string, resources: seq<TwitchDescriptor>)
        returns (ghost removed: seq<Info>, ghost added: seq<Info>)
      requires Valid()
      modifies this
      ensures Valid()
      ensures var oldSet := old(Lookup(session2ChannelName, sessionId));
              var newSet := ChannelNames(resources);
              && ListsRooms(removed, oldSet - newSet)
              && ListsRooms(added, newSet - oldSet)
              && emitterCalls == old(emitterCalls) + DeregCalls(sessionId, removed) + RegCalls(sessionId, added)
              && channelName2Session ==
                   Resubscribe(old(channelName2Session), sessionId, oldSet - newSet, newSet - oldSet)
              && session2ChannelName ==
                   Reassign(old(session2ChannelName), sessionId, newSet, newSet - oldSet != {})
      ensures Lookup(session2ChannelName, sessionId) == ChannelNames(resources)
    {
      var oldResources := Lookup(session2ChannelName, sessionId);
      var newResources := CollectChannelNames(resources);
      var similarRs, removeRs, addRs := DiffTwitch(oldResources, newResources);
      ghost var r2s0, s2r0 := channelName2Session, session2ChannelName;
      ghost var gone, came := oldResources - newResources, newResources - oldResources;
      ChannelNamesMembers(removeRs);
      ChannelNamesMembers(addRs);
      assert ChannelNames(removeRs) == gone && ChannelNames(addRs) == came;
      DeregisterEach(sessionId, removeRs);
      ReassignFacts(s2r0, sessionId, oldResources - gone, false);
      assert Lookup(session2ChannelName, sessionId) == oldResources - gone;
      RegisterEach(sessionId, addRs);
      removed, added := removeRs, addRs;
      assert (oldResources - gone) + came == newResources;
      assert addRs != [] <==> came != {} by {
        if addRs != [] { assert addRs[0] in addRs; }
      }
      ResubscribeCompose(r2s0, sessionId, gone, came);
      ReassignCompose(s2r0, sessionId, oldResources - gone, newResources, came != {});
      MoveKeepsConsistent(r2s0, s2r0, sessionId, gone, came);
      ReassignFacts(s2r0, sessionId, newResources, came != {});
    }

    /** The removal loop of RegisterSessionResources: Deregister on the emitter, then forget the pair. */
    method DeregisterEach(sessionId: string, removeRs: seq<TwitchDescriptor>)
      modifies this
      ensures emitterCalls == old(emitterCalls) + DeregCalls(sessionId, removeRs)
      ensures channelName2Session == Resubscribe(old(channelName2Session), sessionId, ChannelNames(removeRs), {})
      ensures session2ChannelName == Reassign(old(session2ChannelName), sessionId,
                                              old(Lookup(session2ChannelName, sessionId)) - ChannelNames(removeRs), false)
    {
      ghost var r2s0, s2r0 := channelName2Session, session2ChannelName;
      ResubscribeNothing(r2s0, sessionId);
      ReassignSame(s2r0, sessionId);
      assert removeRs[..0] == [];
      assert Lookup(s2r0, sessionId) - ChannelNames(removeRs[..0]) == Lookup(s2r0, sessionId);
      var i := 0;
      while i < |removeRs|
        invariant 0 <= i <= |removeRs|
        invariant emitterCalls == old(emitterCalls) + DeregCalls(sessionId, removeRs[..i])
        invariant channelName2Session == Resubscribe(r2s0, sessionId, ChannelNames(removeRs[..i]), {})
        invariant session2ChannelName ==
                    Reassign(s2r0, sessionId, Lookup(s2r0, sessionId) - ChannelNames(removeRs[..i]), false)
      {
        var removeR := removeRs[i];
        PrefixStep(sessionId, removeRs, i);
        LeaveStep(r2s0, sessionId, ChannelNames(removeRs[..i]), removeR.twitchChannelName);
        ShrinkStep(s2r0, sessionId, ChannelNames(removeRs[..i]), removeR.twitchChannelName);
        emitterCalls := emitterCalls + [Deregister(sessionId, removeR)];
        DeregisterSession(sessionId, removeR);
        i := i + 1;
      }
      assert removeRs[..i] == removeRs;
    }

    /** The addition loop of RegisterSessionResources: Register on the emitter, then record the pair. */
    method RegisterEach(sessionId: string, addRs: seq<TwitchDescriptor>)
      modifies this
      ensures emitterCalls == old(emitterCalls) + RegCalls(sessionId, addRs)
      ensures channelName2Session == Resubscribe(old(channelName2Session), sessionId, {}, ChannelNames(addRs))
      ensures session2ChannelName == Reassign(old(session2ChannelName), sessionId,
                                              old(Lookup(session2ChannelName, sessionId)) + ChannelNames(addRs),
                                              addRs != [])
    {
      ghost var r2s0, s2r0 := channelName2Session, session2ChannelName;
      ResubscribeNothing(r2s0, sessionId);
      ReassignSame(s2r0, sessionId);
      assert addRs[..0] == [];
      assert Lookup(s2r0, sessionId) + ChannelNames(addRs[..0]) == Lookup(s2r0, sessionId);
      var j := 0;
      while j < |addRs|
        invariant 0 <= j <= |addRs|
        invariant emitterCalls == old(emitterCalls) + RegCalls(sessionId, addRs[..j])
        invariant channelName2Session == Resubscribe(r2s0, sessionId, {}, ChannelNames(addRs[..j]))
        invariant session2ChannelName ==
                    Reassign(s2r0, sessionId, Lookup(s2r0, sessionId) + ChannelNames(addRs[..j]), j > 0)
      {
        var addR := addRs[j];
        PrefixStep(sessionId, addRs, j);
        JoinStep(r2s0, sessionId, ChannelNames(addRs[..j]), addR.twitchChannelName);
        GrowStep(s2r0, sessionId, ChannelNames(addRs[..j]), j > 0, addR.twitchChannelName);
        emitterCalls := emitterCalls + [Register(sessionId, addR)];
        RegisterSession(sessionId, addR);
        j := j + 1;
      }
      assert addRs[..j] == addRs;
    }

    /** `registerSession`: record the pair in both directions, creating inner maps as needed. */
    method RegisterSession(sessionId: string, resourceInfo: TwitchDescriptor)
      modifies this
      ensures session2ChannelName == Link(old(session2ChannelName), sessionId, resourceInfo.twitchChannelName)
      ensures channelName2Session == Link(old(channelName2Session), resourceInfo.twitchChannelName, sessionId)
      ensures emitterCalls == old(emitterCalls)
    {
      var name := resourceInfo.twitchChannelName;
      session2ChannelName := Link(session2ChannelName, sessionId, name);
      channelName2Session := Link(channelName2Session, name, sessionId);
    }

    /** `deregisterSession`: forget the pair in both directions; keys stay. */
    method DeregisterSession(sessionId: string, resourceInfo: TwitchDescriptor)
      modifies this
      ensures session2ChannelName == Unlink(old(session2ChannelName), sessionId, resourceInfo.twitchChannelName)
      ensures channelName2Session == Unlink(old(channelName2Session), resourceInfo.twitchChannelName, sessionId)
      ensures emitterCalls == old(emitterCalls)
    {
      var name := resourceInfo.twitchChannelName;
      session2ChannelName := Unlink(session2ChannelName, sessionId, name);
      channelName2Session := Unlink(channelName2Session, name, sessionId);
    }
  }
}
