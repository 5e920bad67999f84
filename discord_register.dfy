// aya-backend/server/service/discord/register.go: the older register of
// "guild/channel" keys, kept as the Go map[string]bool it is (every stored
// value is true).

module DiscordRegister {
  import opened DiscordHub

  class DiscordRegister {
    var guildChannelMap: map<string, bool>

    /** Every stored value is true. */
    ghost predicate Valid()
      reads this
    {
      forall k :: k in guildChannelMap ==> guildChannelMap[k]
    }

    /** `newDiscordRegister`: nothing registered. */
    constructor ()
      ensures Valid() && guildChannelMap == map[]
    {
      guildChannelMap := map[];
    }

    /** `Check`: whether the pair's key is present; it only reads the map. */
    function Check(guildId: string, channelId: string): (ok: bool)
      reads this
      ensures ok <==> Key(guildId, channelId) in guildChannelMap.Keys
    {
      Key(guildId, channelId) in guildChannelMap
    }

    /** `registerChannel`: stores the pair's key unless it is already there; no other
        key changes. */
    method RegisterChannel(guildId: string, channelId: string)
      requires Valid()
      modifies this
      ensures Valid()
      ensures guildChannelMap.Keys == old(guildChannelMap.Keys) + {Key(guildId, channelId)}
      ensures Check(guildId, channelId)
      ensures forall g, c :: Key(g, c) != Key(guildId, channelId) ==> (Check(g, c) <==> old(Check(g, c)))
    {
      var guildChannel := Key(guildId, channelId);
      if guildChannel in guildChannelMap {
        return;
      }
      guildChannelMap := guildChannelMap[guildChannel := true];
    }

    /** `deregisterChannel`: deletes the pair's key, a no-op when absent; no other key changes. */
    method DeregisterChannel(guildId: string, channelId: string)
      requires Valid()
      modifies this
      ensures Valid()
      ensures guildChannelMap == old(guildChannelMap) - {Key(guildId, channelId)}
      ensures !Check(guildId, channelId)
      ensures forall g, c :: Key(g, c) != Key(guildId, channelId) ==> (Check(g, c) <==> old(Check(g, c)))
    {
      var guildChannel := Key(guildId, channelId);
      guildChannelMap := guildChannelMap - {guildChannel};
    }
  }

  /** Two different pairs can share a key, and then one register entry answers for both. */
  lemma SharedKey(r: DiscordRegister)
    ensures Key("a/b", "c") == Key("a", "b/c")
    ensures r.Check("a/b", "c") == r.Check("a", "b/c")
  {
    assert Key("a/b", "c") == Key("a", "b/c");
  }
}
