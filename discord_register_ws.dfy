// aya-backend/server-ws/chat_service/discord/register.go: the set of
// "guild/channel" keys the Discord emitter lets through. Only a key's presence
// in the Go map matters, so the map is a set here.

module DiscordRegisterWs {
  import opened DiscordHub

  class DiscordRegister {
    var guildChannelMap: set<string>

    /** `newDiscordRegister`: nothing registered. */
    constructor ()
      ensures guildChannelMap == {}
    {
      guildChannelMap := {};
    }

    /** `check`: whether the pair's key is registered; it only reads the set. */
    function Check(guildId: string, channelId: string): (ok: bool)
      reads this
      ensures ok <==> Key(guildId, channelId) in guildChannelMap
    {
      Key(guildId, channelId) in guildChannelMap
    }

    /** `register`: the pair's key is added, once; every other key is left as it was. */
    method Register(guildId: string, channelId: string)
      modifies this
      ensures guildChannelMap == old(guildChannelMap) + {Key(guildId, channelId)}
      ensures Check(guildId, channelId)
      ensures forall g, c :: Key(g, c) != Key(guildId, channelId) ==> (Check(g, c) <==> old(Check(g, c)))
    {
      var guildChannel := Key(guildId, channelId);
      if guildChannel in guildChannelMap {
        return;
      }
      guildChannelMap := guildChannelMap + {guildChannel};
    }

    /** `deregister`: the pair's key is removed if present; every other key is left as it was. */
    method Deregister(guildId: string, channelId: string)
      modifies this
      ensures guildChannelMap == old(guildChannelMap) - {Key(guildId, channelId)}
      ensures !Check(guildId, channelId)
      ensures forall g, c :: Key(g, c) != Key(guildId, channelId) ==> (Check(g, c) <==> old(Check(g, c)))
    {
      var guildChannel := Key(guildId, channelId);
      guildChannelMap := guildChannelMap - {guildChannel};
    }
  }

  /** The key joins guild and channel with a '/', so a guild id holding a '/' can
      answer for another pair: registering ("a/b", "c") lets ("a", "b/c") through. */
  lemma KeysCollide(r: DiscordRegister)
    ensures r.Check("a/b", "c") == r.Check("a", "b/c")
  {
    assert Key("a/b", "c") == Key("a", "b/c");
  }
}
