// How each platform hub drives its emitter. A hub's `RegisterSessionResources`
// (aya-backend/server-ws/hubs/twitch.go, aya-backend/server/hubs/youtube.go,
// aya-backend/server/hubs/discord.go) issues one Deregister per room the
// session left and one Register per room it joined. Played through the
// emitter's bookkeeping, those calls leave the emitter's subscriber map equal
// to the hub's room -> sessions map with its empty entries dropped, provided
// that was so before. `RemoveSession` as written issues no call at all, which
// leaves the emitter out of step with the hub.

module Agreement {
  import opened Common
  import opened ChatMessage
  import opened SessionIndex
  import TwitchHub
  import YoutubeHub
  import DiscordHub
  import TwitchEmitter
  import YoutubeEmitter
  import DiscordEmitter

  /** A listing of Twitch rooms is filed by the Twitch emitter under exactly those rooms. */
  lemma TwitchKeys(infos: seq<Info>, rooms: set<string>)
    requires TwitchHub.ListsRooms(infos, rooms)
    ensures KeySet(infos, TwitchEmitter.ChannelKey) == rooms
  {
    KeySetMembers(infos, TwitchEmitter.ChannelKey);
    forall c | c in rooms ensures c in KeySet(infos, TwitchEmitter.ChannelKey) {
      var i :| 0 <= i < |infos| && infos[i] == TwitchInfo(c);
      assert TwitchEmitter.ChannelKey(infos[i]) == Some(c);
    }
  }

  /** A listing of YouTube rooms is filed by the YouTube emitter under exactly those rooms. */
  lemma YoutubeKeys(infos: seq<Info>, rooms: set<string>)
    requires YoutubeHub.ListsRooms(infos, rooms)
    ensures KeySet(infos, YoutubeEmitter.ChannelKey) == rooms
  {
    KeySetMembers(infos, YoutubeEmitter.ChannelKey);
    forall c | c in rooms ensures c in KeySet(infos, YoutubeEmitter.ChannelKey) {
      var i :| 0 <= i < |infos| && infos[i] == YoutubeInfo(c);
      assert YoutubeEmitter.ChannelKey(infos[i]) == Some(c);
    }
  }

  /** The Discord emitter files Discord descriptors under the hub's "guild/channel" keys. */
  lemma {:induction false} DiscordKeysOf(infos: seq<DiscordDescriptor>)
    ensures KeySet(infos, DiscordEmitter.ChannelKey) == DiscordHub.KeysOf(infos)
  {
    if infos != [] {
      DiscordKeysOf(infos[..|infos| - 1]);
    }
  }

  /** Descriptors rebuilt from well-formed stored keys are filed under those keys again. */
  lemma DiscordKeys(infos: seq<Info>, keys: seq<string>, rooms: set<string>)
    requires DiscordHub.Decodes(infos, keys, rooms)
    requires forall k :: k in rooms ==> DiscordHub.WellFormedKey(k)
    ensures KeySet(infos, DiscordEmitter.ChannelKey) == rooms
  {
    KeySetMembers(infos, DiscordEmitter.ChannelKey);
    forall i | 0 <= i < |infos| ensures DiscordEmitter.ChannelKey(infos[i]) == Some(keys[i]) {
      DiscordHub.DescriptorKey(keys[i]);
    }
    forall k | k in rooms ensures k in KeySet(infos, DiscordEmitter.ChannelKey) {
      var i :| 0 <= i < |keys| && keys[i] == k;
      assert DiscordEmitter.ChannelKey(infos[i]) == Some(k);
    }
  }

  /** Twitch: the emitter calls of a registration (or, with nothing added, of a removal
      that deregisters) move the emitter's map exactly as the hub's map moves. */
  lemma TwitchEmitterFollowsHub(m: Index, s: string, left: set<string>, joined: set<string>,
                                removed: seq<Info>, added: seq<Info>)
    requires TwitchHub.ListsRooms(removed, left) && TwitchHub.ListsRooms(added, joined)
    ensures Apply(Live(m), DeregCalls(s, removed) + RegCalls(s, added), TwitchEmitter.ChannelKey)
            == Live(Resubscribe(m, s, left, joined))
  {
    TwitchKeys(removed, left);
    TwitchKeys(added, joined);
    EmitterFollowsHub(m, s, removed, added, TwitchEmitter.ChannelKey);
  }

  /** YouTube: the same agreement between the hub and the YouTube emitter. */
  lemma YoutubeEmitterFollowsHub(m: Index, s: string, left: set<string>, joined: set<string>,
                                 removed: seq<Info>, added: seq<Info>)
    requires YoutubeHub.ListsRooms(removed, left) && YoutubeHub.ListsRooms(added, joined)
    ensures Apply(Live(m), DeregCalls(s, removed) + RegCalls(s, added), YoutubeEmitter.ChannelKey)
            == Live(Resubscribe(m, s, left, joined))
  {
    YoutubeKeys(removed, left);
    YoutubeKeys(added, joined);
    EmitterFollowsHub(m, s, removed, added, YoutubeEmitter.ChannelKey);
  }

  /** Discord: the hub deregisters descriptors rebuilt from its stored (well-formed) keys
      and registers the listed descriptors, and the emitter files both under the hub's keys. */
  lemma DiscordEmitterFollowsHub(m: Index, s: string, left: set<string>, removed: seq<Info>,
                                 removedKeys: seq<string>, added: seq<DiscordDescriptor>)
    requires DiscordHub.Decodes(removed, removedKeys, left)
    requires forall k :: k in left ==> DiscordHub.WellFormedKey(k)
    ensures Apply(Live(m), DeregCalls(s, removed) + RegCalls(s, added), DiscordEmitter.ChannelKey)
            == Live(Resubscribe(m, s, left, DiscordHub.KeysOf(added)))
  {
    DiscordKeys(removed, removedKeys, left);
    DiscordKeysOf(added);
    EmitterFollowsHub(m, s, removed, added, DiscordEmitter.ChannelKey);
  }

  /** `RemoveSession` as written: the hub drops session "s" from room "c" and issues no
      emitter call, so the emitter still counts "s" as a subscriber of "c" and stays
      joined to it. */
  lemma RemoveSessionLeavesEmitterSubscribed()
    ensures var m := map["c" := {"s"}];
            Live(Resubscribe(m, "s", {"c"}, {})) == map[] &&
            Apply(Live(m), [], TwitchEmitter.ChannelKey) == m && m != map[]
  {
    var m := map["c" := {"s"}];
    var after := Resubscribe(m, "s", {"c"}, {});
    assert after.Keys == {"c"} && after["c"] == {};
    assert Live(after) == map[];
    assert "c" in Live(m) && Live(m).Keys == {"c"};
    assert Live(m) == m;
    assert "c" in m;
  }
}
