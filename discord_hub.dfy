// aya-backend/server/hubs/discord.go: the Discord resource hub. Rooms are
// keyed "guild/channel"; the hub keeps which sessions watch which room (both
// directions) and subscribes and unsubscribes them on the Discord emitter.
// The diff decodes stored keys back into descriptors with
// getDiscordGuildChannel, so what a removal or addition touches is the key
// re-encoded from the decoded pair. The emitter is represented by the log of
// calls the hub makes on it.

module DiscordHub {
  import opened Common
  import opened ChatMessage
  import opened SessionIndex

  /** The room key `fmt.Sprintf("%s/%s", guildId, channelId)`. */
  function Key(guildId: string, channelId: string): string
  {
    guildId + "/" + channelId
  }

  /** `getDiscordGuildChannel`: the two halves of a key with exactly one '/', else two empty ids. */
  function GuildChannel(guildChannel: string): (r: (string, string))
    ensures '/' !in r.0 && '/' !in r.1
    ensures |Split(guildChannel, '/')| != 2 ==> r == ("", "")
  {
    var items := Split(guildChannel, '/');
    if |items| != 2 then ("", "") else (items[0], items[1])
  }

  /** A key that decodes to the pair it was built from. */
  ghost predicate WellFormedKey(guildChannel: string)
  {
    |Split(guildChannel, '/')| == 2
  }

  /** Ids without '/' survive the round trip through the key. */
  lemma KeyRoundTrip(guildId: string, channelId: string)
    requires '/' !in guildId && '/' !in channelId
    ensures GuildChannel(Key(guildId, channelId)) == (guildId, channelId)
    ensures WellFormedKey(Key(guildId, channelId))
  {
    SplitPair(guildId, channelId, '/');
  }

  /** A well-formed key is rebuilt exactly from its decoded pair. */
  lemma {:induction false} GuildChannelInverse(guildChannel: string)
    requires WellFormedKey(guildChannel)
    ensures Key(GuildChannel(guildChannel).0, GuildChannel(guildChannel).1) == guildChannel
  {
    var items := Split(guildChannel, '/');
    JoinSplit(guildChannel, '/');
    assert items == [items[0], items[1]];
    assert items[1..] == [items[1]];
    assert Join(items, '/') == items[0] + ['/'] + items[1];
  }

  /** An id with a '/' in it gives a key that decodes to nothing: ("a/b", "c") is stored as "a/b/c". */
  lemma SlashedIdDoesNotRoundTrip()
    ensures Key("a/b", "c") == "a/b/c"
    ensures GuildChannel(Key("a/b", "c")) == ("", "")
  {
    SplitPair("b", "c", '/');
    assert "b/c" == "b" + ['/'] + "c";
    var tail := "/b/c";
    assert tail[0] == '/' && tail[1..] == "b/c";
    assert Split(tail, '/') == ["", "b", "c"];
    SplitPrefix("a", tail, '/');
    assert Key("a/b", "c") == "a" + tail;
    assert "a" + "" == "a";
  }

  /** Neither id of the descriptor contains the key separator. */
  predicate SlashFree(info: DiscordDescriptor)
  {
    '/' !in info.discordGuildId && '/' !in info.discordChannelId
  }

  /** The key of a descriptor. */
  function KeyOf(info: DiscordDescriptor): string
  {
    Key(info.discordGuildId, info.discordChannelId)
  }

  /** The descriptor diffDiscord builds from a stored key. */
  function DescriptorOf(guildChannel: string): (info: DiscordDescriptor)
    ensures SlashFree(info)
  {
    var (guildId, channelId) := GuildChannel(guildChannel);
    DiscordInfo(guildId, channelId)
  }

  /** Every key a descriptor built by diffDiscord re-encodes to is well formed,
      and a well-formed key re-encodes to itself. */
  lemma DescriptorKey(guildChannel: string)
    ensures WellFormedKey(KeyOf(DescriptorOf(guildChannel)))
    ensures WellFormedKey(guildChannel) ==> KeyOf(DescriptorOf(guildChannel)) == guildChannel
  {
    var info := DescriptorOf(guildChannel);
    KeyRoundTrip(info.discordGuildId, info.discordChannelId);
    if WellFormedKey(guildChannel) {
      GuildChannelInverse(guildChannel);
    }
  }

  /** The keys of a list of descriptors. */
  function KeysOf(rs: seq<DiscordDescriptor>): set<string>
  {
    if rs == [] then {} else KeysOf(rs[..|rs| - 1]) + {KeyOf(rs[|rs| - 1])}
  }

  /** What one more step of a loop over `rs` adds to the keys and to the call log. */
  lemma PrefixStep(s: string, rs: seq<DiscordDescriptor>, i: nat)
    requires i < |rs|
    ensures KeysOf(rs[..i + 1]) == KeysOf(rs[..i]) + {KeyOf(rs[i])}
    ensures DeregCalls(s, rs[..i + 1]) == DeregCalls(s, rs[..i]) + [Deregister(s, rs[i])]
    ensures RegCalls(s, rs[..i + 1]) == RegCalls(s, rs[..i]) + [Register(s, rs[i])]
    ensures i == 0 ==> KeysOf(rs[..i]) == {}
  {
    assert rs[..i + 1] == rs[..i] + [rs[i]];
    assert rs[..i + 1][..i] == rs[..i];
    CallsSnoc(s, rs[..i], rs[i]);
  }

  /** The first loop of RegisterSessionResources: the set of wanted keys. */
  method CollectKeys(resources: seq<DiscordDescriptor>) returns (keys: set<string>)
    ensures keys == KeysOf(resources)
  {
    keys := {};
    var k := 0;
    while k < |resources|
      invariant 0 <= k <= |resources|
      invariant keys == KeysOf(resources[..k])
    {
      assert resources[..k + 1][..k] == resources[..k];
      keys := keys + {Key(resources[k].discordGuildId, resources[k].discordChannelId)};
      k := k + 1;
    }
    assert resources[..k] == resources;
  }

  /** `infos` is what diffDiscord builds from `keys`, a listing of `rooms` with each key once. */
  ghost predicate Decodes(infos: seq<Info>, keys: seq<string>, rooms: set<string>)
  {
    Enumerates(keys, rooms) &&
    |infos| == |keys| &&
    (forall i :: 0 <= i < |infos| ==> infos[i] == DescriptorOf(keys[i]))
  }

  /** Decoding one more key that was not listed yet. */
  lemma DecodesAppend(infos: seq<Info>, keys: seq<string>, rooms: set<string>, k: string)
    requires Decodes(infos, keys, rooms) && k !in rooms
    ensures Decodes(infos + [DescriptorOf(k)], keys + [k], rooms + {k})
  {
    DistinctAppend(keys, k);
  }

  /** A decoded listing of well-formed keys re-encodes to exactly those keys. */
  lemma {:induction false} DecodedKeys(infos: seq<DiscordDescriptor>, keys: seq<string>, rooms: set<string>)
    requires Decodes(infos, keys, rooms)
    ensures forall k :: k in KeysOf(infos) ==> WellFormedKey(k)
    ensures (forall k :: k in rooms ==> WellFormedKey(k)) ==> KeysOf(infos) == rooms
  {
    if infos != [] {
      var n := |infos| - 1;
      var last := keys[n];
      assert Enumerates(keys[..n], rooms - {last}) by {
        assert keys == keys[..n] + [last];
        assert last !in keys[..n];
      }
      DecodedKeys(infos[..n], keys[..n], rooms - {last});
      DescriptorKey(last);
    }
  }

  /** `diffDiscord`: the keys kept, dropped and newly wanted, each once and decoded. */
  method DiffDiscord(oldResources: set<string>, newResources: set<string>)
      returns (similar: seq<DiscordDescriptor>, remove: seq<DiscordDescriptor>, add: seq<DiscordDescriptor>,
               ghost similarKeys: seq<string>, ghost removeKeys: seq<string>, ghost addKeys: seq<string>)
    ensures Decodes(similar, similarKeys, oldResources * newResources)
    ensures Decodes(remove, removeKeys, oldResources - newResources)
    ensures Decodes(add, addKeys, newResources - oldResources)
  {
    similar, remove, add := [], [], [];
    similarKeys, removeKeys, addKeys := [], [], [];
    var rest := oldResources;
    while rest != {}
      invariant rest <= oldResources
      invariant Decodes(similar, similarKeys, (oldResources - rest) * newResources)
      invariant Decodes(remove, removeKeys, (oldResources - rest) - newResources)
      decreases rest
    {
      var oldGuildChannel :| oldGuildChannel in rest;
      var (guildId, channelId) := GuildChannel(oldGuildChannel);
      if oldGuildChannel !in newResources {
        DecodesAppend(remove, removeKeys, (oldResources - rest) - newResources, oldGuildChannel);
        remove := remove + [DiscordInfo(guildId, channelId)];
        removeKeys := removeKeys + [oldGuildChannel];
      } else {
        DecodesAppend(similar, similarKeys, (oldResources - rest) * newResources, oldGuildChannel);
        similar := similar + [DiscordInfo(guildId, channelId)];
        similarKeys := similarKeys + [oldGuildChannel];
      }
      rest := rest - {oldGuildChannel};
    }
    rest := newResources;
    while rest != {}
      invariant rest <= newResources
      invariant Decodes(add, addKeys, (newResources - rest) - oldResources)
      decreases rest
    {
      var newGuildChannel :| newGuildChannel in rest;
      if newGuildChannel !in oldResources {
        var (guildId, channelId) := GuildChannel(newGuildChannel);
        DecodesAppend(add, addKeys, (newResources - rest) - oldResources, newGuildChannel);
        add := add + [DiscordInfo(guildId, channelId)];
        addKeys := addKeys + [newGuildChannel];
      }
      rest := rest - {newGuildChannel};
    }
  }

  /** Every room a session is recorded in has a well-formed key. */
  ghost predicate WellKeyed(s2r: Index)
  {
    forall s, k :: k in Lookup(s2r, s) ==> WellFormedKey(k)
  }

  /** Dropping a session keeps every remaining room key well formed. */
  lemma WellKeyedDrop(s2r: Index, s: string)
    requires WellKeyed(s2r)
    ensures WellKeyed(s2r - {s})
  {
    forall s', k | k in Lookup(s2r - {s}, s') ensures WellFormedKey(k) {
      assert k in Lookup(s2r, s');
    }
  }

  /** Registering descriptors whose ids have no '/' leaves the session in exactly their rooms. */
  lemma PlainIdsRegisterExactly(oldSet: set<string>, resources: seq<DiscordDescriptor>,
                                added: seq<DiscordDescriptor>, addedKeys: seq<string>)
    requires forall i :: 0 <= i < |resources| ==> SlashFree(resources[i])
    requires Decodes(added, addedKeys, KeysOf(resources) - oldSet)
    ensures (oldSet * KeysOf(resources)) + KeysOf(added) == KeysOf(resources)
  {
    PlainKeysWellFormed(resources);
    DecodedKeys(added, addedKeys, KeysOf(resources) - oldSet);
  }

  /** The keys of descriptors without '/' in their ids are well formed. */
  lemma {:induction false} PlainKeysWellFormed(rs: seq<DiscordDescriptor>)
    requires forall i :: 0 <= i < |rs| ==> SlashFree(rs[i])
    ensures forall k :: k in KeysOf(rs) ==> WellFormedKey(k)
  {
    if rs != [] {
      var last := rs[|rs| - 1];
      PlainKeysWellFormed(rs[..|rs| - 1]);
      KeyRoundTrip(last.discordGuildId, last.discordChannelId);
    }
  }

  /** The removal loop followed by the addition loop of RegisterSessionResources is one
      move of session `s` from the rooms it leaves to the re-encoded rooms it joins,
      and the hub stays consistent and well keyed. */
  lemma RegisterOutcome(r2s0: Index, s2r0: Index, s: string, newSet: set<string>,
                        removeRs: seq<DiscordDescriptor>, removeKeys: seq<string>,
                        addRs: seq<DiscordDescriptor>, addKeys: seq<string>)
    requires Consistent(r2s0, s2r0) && WellKeyed(s2r0)
    requires Decodes(removeRs, removeKeys, Lookup(s2r0, s) - newSet)
    requires Decodes(addRs, addKeys, newSet - Lookup(s2r0, s))
    ensures var oldSet := Lookup(s2r0, s);
            var gone, came := oldSet - newSet, KeysOf(addRs);
            var r2s1 := Resubscribe(r2s0, s, KeysOf(removeRs), {});
            var s2r1 := Reassign(s2r0, s, oldSet - KeysOf(removeRs), false);
            var r2s2 := Resubscribe(r2s1, s, {}, KeysOf(addRs));
            var s2r2 := Reassign(s2r1, s, Lookup(s2r1, s) + KeysOf(addRs), addRs != []);
            && r2s2 == Resubscribe(r2s0, s, gone, came)
            && s2r2 == Reassign(s2r0, s, (oldSet * newSet) + came, addRs != [])
            && Consistent(r2s2, s2r2) && WellKeyed(s2r2)
  {
    var oldSet := Lookup(s2r0, s);
    var gone, came := oldSet - newSet, KeysOf(addRs);
    DecodedKeys(removeRs, removeKeys, gone);
    DecodedKeys(addRs, addKeys, newSet - oldSet);
    ReassignFacts(s2r0, s, oldSet - gone, false);
    var s2r1 := Reassign(s2r0, s, oldSet - gone, false);
    assert Lookup(s2r1, s) == oldSet - gone;
    assert (oldSet - gone) + came == (oldSet * newSet) + came;
    assert addRs != [] <==> came != {} by {
      if addRs != [] {
        PrefixStep(s, addRs, |addRs| - 1);
        assert addRs[..|addRs|] == addRs;
      }
    }
    ResubscribeCompose(r2s0, s, gone, came);
    ReassignCompose(s2r0, s, oldSet - gone, (oldSet - gone) + came, addRs != []);
    MoveKeepsConsistent(r2s0, s2r0, s, gone, came);
    var s2r2 := Reassign(s2r0, s, (oldSet * newSet) + came, addRs != []);
    ReassignFacts(s2r0, s, (oldSet * newSet) + came, addRs != []);
    forall s', k | k in Lookup(s2r2, s') ensures WellFormedKey(k) {
      if s' != s {
        assert k in Lookup(s2r0, s');
      } else if k !in came {
        assert k in Lookup(s2r0, s);
      }
    }
  }

  /** One round of LeaveAll's loop keeps its invariants. */
  lemma LeaveAllStep(r2s0: Index, s: string, rooms: set<string>, rest: set<string>,
                     removed: seq<Info>, removedKeys: seq<string>, k: string)
    requires rest <= rooms && k in rest
    requires Decodes(removed, removedKeys, rooms - rest)
    ensures Decodes(removed + [DescriptorOf(k)], removedKeys + [k], rooms - (rest - {k}))
    ensures DeregCalls(s, removed + [DescriptorOf(k)]) == DeregCalls(s, removed) + [Deregister(s, DescriptorOf(k))]
    ensures Unlink(Resubscribe(r2s0, s, rooms - rest, {}), k, s) == Resubscribe(r2s0, s, rooms - (rest - {k}), {})
  {
    LeaveStep(r2s0, s, rooms - rest, k);
    DecodesAppend(removed, removedKeys, rooms - rest, k);
    CallsSnoc(s, removed, DescriptorOf(k));
    assert rooms - (rest - {k}) == (rooms - rest) + {k};
  }

  /** The shape of the as-written `GetSessionId` answer: one slot per watcher, slot 0
      holding one of them and every other slot the empty string. */
  ghost predicate SlotZero(sessions: seq<string>, watchers: set<string>)
  {
    && |sessions| == |watchers|
    && (watchers != {} ==> sessions[0] in watchers)
    && (forall i :: 1 <= i < |sessions| ==> sessions[i] == "")
  }

  /** Of a slot-0 answer, at most one non-empty session is named. */
  lemma SlotZeroNamesOne(sessions: seq<string>, watchers: set<string>, a: string, b: string)
    requires SlotZero(sessions, watchers)
    requires a in sessions && b in sessions && a != "" && b != ""
    ensures a == b && a in watchers
  {
  }

  class DiscordResourceHub {
    var guildChannel2Session: Index
    var session2GuildChannel: Index
    /** The Register and Deregister calls made on the Discord emitter, oldest first. */
    ghost var emitterCalls: seq<EmitterCall>

    ghost predicate Valid()
      reads this
    {
      Consistent(guildChannel2Session, session2GuildChannel) && WellKeyed(session2GuildChannel)
    }

    /** `NewDiscordResourceHub`: both directions empty. */
    constructor ()
      ensures Valid()
      ensures guildChannel2Session == map[] && session2GuildChannel == map[] && emitterCalls == []
    {
      guildChannel2Session := map[];
      session2GuildChannel := map[];
      emitterCalls := [];
    }

    /** `GetSessionId` as written: `idx` is never advanced, so every session is written
        to slot 0 and the other slots keep the empty string. */
    method GetSessionId(resourceInfo: Info) returns (sessions: seq<string>)
      ensures !resourceInfo.DiscordInfo? ==> sessions == []
      ensures resourceInfo.DiscordInfo? ==>
                var watchers := Lookup(guildChannel2Session, KeyOf(resourceInfo));
                && SlotZero(sessions, watchers)
                && (|watchers| >= 2 && "" !in watchers ==> !Enumerates(sessions, watchers))
    {
      if !resourceInfo.DiscordInfo? {
        return [];
      }
      var guildChannel := Key(resourceInfo.discordGuildId, resourceInfo.discordChannelId);
      if guildChannel !in guildChannel2Session {
        return [];
      }
      var watchers := guildChannel2Session[guildChannel];
      var slots := new string[|watchers|](_ => "");
      var idx := 0;
      var rest := watchers;
      while rest != {}
        invariant rest <= watchers
        invariant slots.Length == |watchers|
        invariant forall i :: 1 <= i < slots.Length ==> slots[i] == ""
        invariant rest != watchers ==> slots[0] in watchers
        decreases rest
      {
        var sessionId :| sessionId in rest;
        slots[idx] := sessionId;
        rest := rest - {sessionId};
      }
      sessions := slots[..];
      if |watchers| >= 2 && "" !in watchers {
        assert sessions[1] !in watchers;
      }
    }

    /** GetSessionId as intended: every session watching the room, each once. */
    method GetSessionIdCorrected(resourceInfo: Info) returns (sessions: seq<string>)
      ensures !resourceInfo.DiscordInfo? ==> sessions == []
      ensures resourceInfo.DiscordInfo? ==>
                Enumerates(sessions, Lookup(guildChannel2Session, KeyOf(resourceInfo)))
    {
      if !resourceInfo.DiscordInfo? {
        return [];
      }
      var guildChannel := Key(resourceInfo.discordGuildId, resourceInfo.discordChannelId);
      if guildChannel !in guildChannel2Session {
        return [];
      }
      var watchers := guildChannel2Session[guildChannel];
      var slots := new string[|watchers|](_ => "");
      var idx := 0;
      var rest := watchers;
      while rest != {}
        invariant rest <= watchers
        invariant idx + |rest| == slots.Length
        invariant Distinct(slots[..idx])
        invariant forall x :: x in slots[..idx] <==> x in watchers - rest
        decreases rest
      {
        var sessionId :| sessionId in rest;
        DistinctAppend(slots[..idx], sessionId);
        slots[idx] := sessionId;
        assert slots[..idx + 1] == slots[..idx] + [sessionId];
        idx := idx + 1;
        rest := rest - {sessionId};
      }
      assert slots[..idx] == slots[..];
      sessions := slots[..];
    }

    /** `RemoveSession` as written: the session leaves every room and loses its entry,
        but the emitter is never told (see RemoveSessionDeregistering). */
    method RemoveSession(sessionId: string)
      requires Valid()
      modifies this
      ensures Valid()
      ensures guildChannel2Session ==
                Resubscribe(old(guildChannel2Session), sessionId, old(Lookup(session2GuildChannel, sessionId)), {})
      ensures session2GuildChannel == old(session2GuildChannel) - {sessionId}
      ensures emitterCalls == old(emitterCalls)
    {
      ResubscribeNothing(guildChannel2Session, sessionId);
      if sessionId !in session2GuildChannel {
        return;
      }
      var rooms := session2GuildChannel[sessionId];
      var rest := rooms;
      while rest != {}
        invariant rest <= rooms
        invariant session2GuildChannel == old(session2GuildChannel) && emitterCalls == old(emitterCalls)
        invariant guildChannel2Session == Resubscribe(old(guildChannel2Session), sessionId, rooms - rest, {})
        decreases rest
      {
        var guildChannel :| guildChannel in rest;
        LeaveStep(old(guildChannel2Session), sessionId, rooms - rest, guildChannel);
        guildChannel2Session := Unlink(guildChannel2Session, guildChannel, sessionId);
        assert rooms - (rest - {guildChannel}) == (rooms - rest) + {guildChannel};
        rest := rest - {guildChannel};
      }
      assert rooms - rest == Lookup(old(session2GuildChannel), sessionId);
      session2GuildChannel := session2GuildChannel - {sessionId};
      DropKeepsConsistent(old(guildChannel2Session), old(session2GuildChannel), sessionId);
      WellKeyedDrop(old(session2GuildChannel), sessionId);
    }

    /** RemoveSession as intended: every room the session leaves is also deregistered
        on the emitter, once, before the session's entry is dropped. */
    method RemoveSessionDeregistering(sessionId: string) returns (ghost removed: seq<Info>, ghost removedKeys: seq<string>)
      requires Valid()
      modifies this
      ensures Valid()
      ensures Decodes(removed, removedKeys, old(Lookup(session2GuildChannel, sessionId)))
      ensures emitterCalls == old(emitterCalls) + DeregCalls(sessionId, removed)
      ensures guildChannel2Session ==
                Resubscribe(old(guildChannel2Session), sessionId, old(Lookup(session2GuildChannel, sessionId)), {})
      ensures session2GuildChannel == old(session2GuildChannel) - {sessionId}
    {
      removed, removedKeys := [], [];
      ResubscribeNothing(guildChannel2Session, sessionId);
      if sessionId !in session2GuildChannel {
        return;
      }
      removed, removedKeys := LeaveAll(sessionId, session2GuildChannel[sessionId]);
      session2GuildChannel := session2GuildChannel - {sessionId};
      DropKeepsConsistent(old(guildChannel2Session), old(session2GuildChannel), sessionId);
      WellKeyedDrop(old(session2GuildChannel), sessionId);
    }

    /** The loop of RemoveSessionDeregistering: leave each of `rooms` and deregister it on the emitter. */
    method LeaveAll(sessionId: string, rooms: set<string>) returns (ghost removed: seq<Info>, ghost removedKeys: seq<string>)
      modifies this
      ensures Decodes(removed, removedKeys, rooms)
      ensures emitterCalls == old(emitterCalls) + DeregCalls(sessionId, removed)
      ensures guildChannel2Session == Resubscribe(old(guildChannel2Session), sessionId, rooms, {})
      ensures session2GuildChannel == old(session2GuildChannel)
    {
      removed, removedKeys := [], [];
      ghost var calls0, calls := emitterCalls, emitterCalls;
      var index0, index := guildChannel2Session, guildChannel2Session;
      ResubscribeNothing(index0, sessionId);
      var rest := rooms;
      while rest != {}
        invariant rest <= rooms
        invariant Decodes(removed, removedKeys, rooms - rest)
        invariant unchanged(this)
        invariant calls == calls0 + DeregCalls(sessionId, removed)
        invariant index == Resubscribe(index0, sessionId, rooms - rest, {})
        decreases rest
      {
        var guildChannel :| guildChannel in rest;
        var info := DescriptorOf(guildChannel);
        LeaveAllStep(index0, sessionId, rooms, rest, removed, removedKeys, guildChannel);
        calls := calls + [Deregister(sessionId, info)];
        removed, removedKeys := removed + [info], removedKeys + [guildChannel];
        index := Unlink(index, guildChannel, sessionId);
        rest := rest - {guildChannel};
      }
      assert rooms - rest == rooms;
      emitterCalls, guildChannel2Session := calls, index;
    }

    /** `AddSession`: takes the lock and changes nothing. */
    method AddSession(sessionId: string)
      ensures unchanged(this)
    {
    }

    /** `RegisterSessionResources`: each dropped key is decoded and deregistered on the emitter
        once, then each new key is decoded and registered once; kept keys cause no call. What is
        removed and added in the two directions is the key re-encoded from the decoded pair. */
    method RegisterSessionResources(sessionId: string, resources: seq<DiscordDescriptor>)
        returns (ghost removed: seq<DiscordDescriptor>, ghost removedKeys: seq<string>,
                 ghost added: seq<DiscordDescriptor>, ghost addedKeys: seq<string>)
      requires Valid()
      modifies this
      ensures Valid()
      ensures var oldSet := old(Lookup(session2GuildChannel, sessionId));
              var newSet := KeysOf(resources);
              && Decodes(removed, removedKeys, oldSet - newSet)
              && Decodes(added, addedKeys, newSet - oldSet)
              && emitterCalls == old(emitterCalls) + DeregCalls(sessionId, removed) + RegCalls(sessionId, added)
              && guildChannel2Session ==
                   Resubscribe(old(guildChannel2Session), sessionId, oldSet - newSet, KeysOf(added))
              && session2GuildChannel ==
                   Reassign(old(session2GuildChannel), sessionId, (oldSet * newSet) + KeysOf(added), added != [])
      ensures (forall i :: 0 <= i < |resources| ==> SlashFree(resources[i])) ==>
                Lookup(session2GuildChannel, sessionId) == KeysOf(resources)
    {
      var oldResources := Lookup(session2GuildChannel, sessionId);
      var newResources := CollectKeys(resources);
      var similarRs, removeRs, addRs, similarKeys, removeKeys, addKeys := DiffDiscord(oldResources, newResources);
      ghost var r2s0, s2r0 := guildChannel2Session, session2GuildChannel;
      RegisterOutcome(r2s0, s2r0, sessionId, newResources, removeRs, removeKeys, addRs, addKeys);
      DeregisterEach(sessionId, removeRs);
      RegisterEach(sessionId, addRs);
      removed, removedKeys, added, addedKeys := removeRs, removeKeys, addRs, addKeys;
      if forall i :: 0 <= i < |resources| ==> SlashFree(resources[i]) {
        PlainIdsRegisterExactly(oldResources, resources, addRs, addKeys);
        ReassignFacts(s2r0, sessionId, (oldResources * newResources) + KeysOf(addRs), addRs != []);
      }
    }

    /** The removal loop of RegisterSessionResources: Deregister on the emitter, then forget the pair. */
    method DeregisterEach(sessionId: string, removeRs: seq<DiscordDescriptor>)
      modifies this
      ensures emitterCalls == old(emitterCalls) + DeregCalls(sessionId, removeRs)
      ensures guildChannel2Session == Resubscribe(old(guildChannel2Session), sessionId, KeysOf(removeRs), {})
      ensures session2GuildChannel == Reassign(old(session2GuildChannel), sessionId,
                                               old(Lookup(session2GuildChannel, sessionId)) - KeysOf(removeRs), false)
    {
      ghost var r2s0, s2r0 := guildChannel2Session, session2GuildChannel;
      ResubscribeNothing(r2s0, sessionId);
      ReassignSame(s2r0, sessionId);
      assert removeRs[..0] == [];
      assert Lookup(s2r0, sessionId) - KeysOf(removeRs[..0]) == Lookup(s2r0, sessionId);
      var i := 0;
      while i < |removeRs|
        invariant 0 <= i <= |removeRs|
        invariant emitterCalls == old(emitterCalls) + DeregCalls(sessionId, removeRs[..i])
        invariant guildChannel2Session == Resubscribe(r2s0, sessionId, KeysOf(removeRs[..i]), {})
        invariant session2GuildChannel ==
                    Reassign(s2r0, sessionId, Lookup(s2r0, sessionId) - KeysOf(removeRs[..i]), false)
      {
        var removeR := removeRs[i];
        PrefixStep(sessionId, removeRs, i);
        LeaveStep(r2s0, sessionId, KeysOf(removeRs[..i]), KeyOf(removeR));
        ShrinkStep(s2r0, sessionId, KeysOf(removeRs[..i]), KeyOf(removeR));
        emitterCalls := emitterCalls + [Deregister(sessionId, removeR)];
        DeregisterSession(sessionId, removeR);
        i := i + 1;
      }
      assert removeRs[..i] == removeRs;
    }

    /** The addition loop of RegisterSessionResources: Register on the emitter, then record the pair. */
    method RegisterEach(sessionId: string, addRs: seq<DiscordDescriptor>)
      modifies this
      ensures emitterCalls == old(emitterCalls) + RegCalls(sessionId, addRs)
      ensures guildChannel2Session == Resubscribe(old(guildChannel2Session), sessionId, {}, KeysOf(addRs))
      ensures session2GuildChannel == Reassign(old(session2GuildChannel), sessionId,
                                               old(Lookup(session2GuildChannel, sessionId)) + KeysOf(addRs),
                                               addRs != [])
    {
      ghost var r2s0, s2r0 := guildChannel2Session, session2GuildChannel;
      ResubscribeNothing(r2s0, sessionId);
      ReassignSame(s2r0, sessionId);
      assert addRs[..0] == [];
      assert Lookup(s2r0, sessionId) + KeysOf(addRs[..0]) == Lookup(s2r0, sessionId);
      var j := 0;
      while j < |addRs|
        invariant 0 <= j <= |addRs|
        invariant emitterCalls == old(emitterCalls) + RegCalls(sessionId, addRs[..j])
        invariant guildChannel2Session == Resubscribe(r2s0, sessionId, {}, KeysOf(addRs[..j]))
        invariant session2GuildChannel ==
                    Reassign(s2r0, sessionId, Lookup(s2r0, sessionId) + KeysOf(addRs[..j]), j > 0)
      {
        var addR := addRs[j];
        PrefixStep(sessionId, addRs, j);
        JoinStep(r2s0, sessionId, KeysOf(addRs[..j]), KeyOf(addR));
        GrowStep(s2r0, sessionId, KeysOf(addRs[..j]), j > 0, KeyOf(addR));
        emitterCalls := emitterCalls + [Register(sessionId, addR)];
        RegisterSession(sessionId, addR);
        j := j + 1;
      }
      assert addRs[..j] == addRs;
    }

    /** `registerSession`: record the pair under its key in both directions, creating inner maps as needed. */
    method RegisterSession(sessionId: string, resourceInfo: DiscordDescriptor)
      modifies this
      ensures session2GuildChannel == Link(old(session2GuildChannel), sessionId, KeyOf(resourceInfo))
      ensures guildChannel2Session == Link(old(guildChannel2Session), KeyOf(resourceInfo), sessionId)
      ensures emitterCalls == old(emitterCalls)
    {
      var guildChannel := Key(resourceInfo.discordGuildId, resourceInfo.discordChannelId);
      session2GuildChannel := Link(session2GuildChannel, sessionId, guildChannel);
      guildChannel2Session := Link(guildChannel2Session, guildChannel, sessionId);
    }

    /** `deregisterSession`: forget the pair under its key in both directions; keys stay. */
    method DeregisterSession(sessionId: string, resourceInfo: DiscordDescriptor)
      modifies this
      ensures session2GuildChannel == Unlink(old(session2GuildChannel), sessionId, KeyOf(resourceInfo))
      ensures guildChannel2Session == Unlink(old(guildChannel2Session), KeyOf(resourceInfo), sessionId)
      ensures emitterCalls == old(emitterCalls)
    {
      var guildChannel := Key(resourceInfo.discordGuildId, resourceInfo.discordChannelId);
      session2GuildChannel := Unlink(session2GuildChannel, sessionId, guildChannel);
      guildChannel2Session := Unlink(guildChannel2Session, guildChannel, sessionId);
    }
  }
}
