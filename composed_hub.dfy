// aya-backend/server/hubs/composed_hub.go: the older message hub, with a
// Discord and a YouTube hub only. Same dispatch, split and
// `registeredSessions` bookkeeping as the newer one, minus Twitch; its
// RemoveSession covers both of its platform hubs. The periodic database
// refresh is not modelled. `GetSessionId` and `RemoveSession` call the
// platform hubs' members the program calls; `GetSessionIdCorrected` and
// `RemoveSessionCorrected` call their corrected counterparts.

module ComposedHub {
  import opened Common
  import opened ChatMessage
  import opened SessionIndex
  import DiscordHub
  import YoutubeHub
  import ComposedHubWs

  /** The loop at the top of RegisterSessionResources: Discord and YouTube lists; every
      other type, Twitch included, is dropped. */
  method Partition(resources: seq<Resource>)
      returns (discordResources: seq<DiscordDescriptor>, youtubeResources: seq<YoutubeDescriptor>)
    ensures discordResources == ComposedHubWs.Select(resources, Discord)
    ensures youtubeResources == ComposedHubWs.Select(resources, Youtube)
  {
    discordResources, youtubeResources := [], [];
    var i := 0;
    while i < |resources|
      invariant 0 <= i <= |resources|
      invariant discordResources == ComposedHubWs.Select(resources[..i], Discord)
      invariant youtubeResources == ComposedHubWs.Select(resources[..i], Youtube)
    {
      assert resources[..i + 1][..i] == resources[..i];
      var resource := resources[i];
      if resource.resourceType == Discord {
        if resource.resourceInfo.DiscordInfo? {
          discordResources := discordResources + [resource.resourceInfo];
        }
      } else if resource.resourceType == Youtube {
        if resource.resourceInfo.YoutubeInfo? {
          youtubeResources := youtubeResources + [resource.resourceInfo];
        }
      }
      i := i + 1;
    }
    assert resources[..i] == resources;
  }

  class MessageHub {
    const discordHub: DiscordHub.DiscordResourceHub?
    const youtubeHub: YoutubeHub.YoutubeResourceHub?
    var registeredSessions: map<string, bool>

    ghost predicate Valid()
      reads this, discordHub, youtubeHub
    {
      (discordHub != null ==> discordHub.Valid()) &&
      (youtubeHub != null ==> youtubeHub.Valid())
    }

    /** `NewMessageHub`: two empty platform hubs and no registered session. */
    constructor ()
      ensures Valid()
      ensures fresh(discordHub) && fresh(youtubeHub)
      ensures registeredSessions == map[]
    {
      discordHub := new DiscordHub.DiscordResourceHub();
      youtubeHub := new YoutubeHub.YoutubeResourceHub();
      registeredSessions := map[];
    }

    /** The sessions the dispatch answers with. */
    ghost function Watchers(resourceInfo: Info): set<string>
      reads this, discordHub, youtubeHub
    {
      if !resourceInfo.ResourceValue? then {}
      else
        var r := resourceInfo.resource;
        if r.resourceType == Discord && discordHub != null && r.resourceInfo.DiscordInfo? then
          Lookup(discordHub.guildChannel2Session, DiscordHub.KeyOf(r.resourceInfo))
        else if r.resourceType == Youtube && youtubeHub != null && r.resourceInfo.YoutubeInfo? then
          Lookup(youtubeHub.channel2Session, r.resourceInfo.youtubeChannelId)
        else {}
    }

    /** `GetSessionId` as written: Discord and YouTube resources go to their hubs, the
        Discord one answering in its slot-0 shape; anything else, Twitch included, a
        non-Resource value or a missing hub gives nothing. */
    method GetSessionId(resourceInfo: Info) returns (sessions: seq<string>)
      ensures !resourceInfo.ResourceValue? ==> sessions == []
      ensures resourceInfo.ResourceValue? && resourceInfo.resource.resourceType !in {Discord, Youtube} ==>
                sessions == []
      ensures resourceInfo.ResourceValue? && resourceInfo.resource.resourceType == Discord ==>
                DiscordHub.SlotZero(sessions, Watchers(resourceInfo))
      ensures !(resourceInfo.ResourceValue? && resourceInfo.resource.resourceType == Discord) ==>
                Enumerates(sessions, Watchers(resourceInfo))
    {
      if !resourceInfo.ResourceValue? {
        return [];
      }
      var r := resourceInfo.resource;
      if r.resourceType == Discord {
        if discordHub != null {
          sessions := discordHub.GetSessionId(r.resourceInfo);
        } else {
          sessions := [];
        }
      } else if r.resourceType == Youtube {
        if youtubeHub != null {
          sessions := youtubeHub.GetSessionId(r.resourceInfo);
        } else {
          sessions := [];
        }
      } else {
        sessions := [];
      }
    }

    /** GetSessionId with the corrected Discord lookup: every watcher of the resource,
        each once. */
    method GetSessionIdCorrected(resourceInfo: Info) returns (sessions: seq<string>)
      ensures Enumerates(sessions, Watchers(resourceInfo))
      ensures !resourceInfo.ResourceValue? ==> sessions == []
      ensures resourceInfo.ResourceValue? && resourceInfo.resource.resourceType !in {Discord, Youtube} ==>
                sessions == []
    {
      if !resourceInfo.ResourceValue? {
        return [];
      }
      var r := resourceInfo.resource;
      if r.resourceType == Discord {
        if discordHub != null {
          sessions := discordHub.GetSessionIdCorrected(r.resourceInfo);
        } else {
          sessions := [];
        }
      } else if r.resourceType == Youtube {
        if youtubeHub != null {
          sessions := youtubeHub.GetSessionId(r.resourceInfo);
        } else {
          sessions := [];
        }
      } else {
        sessions := [];
      }
    }

    /** `RemoveSession` as written: forgets the session and unlinks it from both platform
        hubs, which make no emitter call. */
    method RemoveSession(sessionId: string)
      requires Valid() && discordHub != null && youtubeHub != null
      modifies this, discordHub, youtubeHub
      ensures Valid()
      ensures registeredSessions == old(registeredSessions) - {sessionId}
      ensures sessionId !in discordHub.session2GuildChannel && sessionId !in youtubeHub.session2Channel
      ensures forall c :: sessionId !in Lookup(youtubeHub.channel2Session, c)
      ensures forall k :: sessionId !in Lookup(discordHub.guildChannel2Session, k)
      ensures discordHub.emitterCalls == old(discordHub.emitterCalls)
      ensures youtubeHub.emitterCalls == old(youtubeHub.emitterCalls)
    {
      registeredSessions := registeredSessions - {sessionId};
      discordHub.RemoveSession(sessionId);
      youtubeHub.RemoveSession(sessionId);
      forall c ensures sessionId !in Lookup(youtubeHub.channel2Session, c) {
        assert c !in Lookup(youtubeHub.session2Channel, sessionId);
      }
      forall k ensures sessionId !in Lookup(discordHub.guildChannel2Session, k) {
        assert k !in Lookup(discordHub.session2GuildChannel, sessionId);
      }
    }

    /** RemoveSession with the corrected platform removals: the same unlinking, plus one
        emitter Deregister per room the session leaves. */
    method RemoveSessionCorrected(sessionId: string)
        returns (ghost discordRemoved: seq<Info>, ghost discordKeys: seq<string>, ghost youtubeRemoved: seq<Info>)
      requires Valid() && discordHub != null && youtubeHub != null
      modifies this, discordHub, youtubeHub
      ensures Valid()
      ensures registeredSessions == old(registeredSessions) - {sessionId}
      ensures sessionId !in discordHub.session2GuildChannel && sessionId !in youtubeHub.session2Channel
      ensures forall c :: sessionId !in Lookup(youtubeHub.channel2Session, c)
      ensures forall k :: sessionId !in Lookup(discordHub.guildChannel2Session, k)
      ensures DiscordHub.Decodes(discordRemoved, discordKeys, old(Lookup(discordHub.session2GuildChannel, sessionId)))
      ensures discordHub.emitterCalls == old(discordHub.emitterCalls) + DeregCalls(sessionId, discordRemoved)
      ensures YoutubeHub.ListsRooms(youtubeRemoved, old(Lookup(youtubeHub.session2Channel, sessionId)))
      ensures youtubeHub.emitterCalls == old(youtubeHub.emitterCalls) + DeregCalls(sessionId, youtubeRemoved)
    {
      registeredSessions := registeredSessions - {sessionId};
      discordRemoved, discordKeys := discordHub.RemoveSessionDeregistering(sessionId);
      youtubeRemoved := youtubeHub.RemoveSessionDeregistering(sessionId);
      forall c ensures sessionId !in Lookup(youtubeHub.channel2Session, c) {
        assert c !in Lookup(youtubeHub.session2Channel, sessionId);
      }
      forall k ensures sessionId !in Lookup(discordHub.guildChannel2Session, k) {
        assert k !in Lookup(discordHub.session2GuildChannel, sessionId);
      }
    }

    /** `RegisterSessionResources`: both present hubs are given their share of the list,
        an empty one included; then the session is marked registered. */
    method RegisterSessionResources(sessionId: string, resources: seq<Resource>)
      requires Valid()
      modifies this, discordHub, youtubeHub
      ensures Valid()
      ensures registeredSessions == old(registeredSessions)[sessionId := true]
      ensures discordHub != null &&
              (forall x :: x in ComposedHubWs.Select(resources, Discord) ==> DiscordHub.SlashFree(x)) ==>
                Lookup(discordHub.session2GuildChannel, sessionId) ==
                  DiscordHub.KeysOf(ComposedHubWs.Select(resources, Discord))
      ensures youtubeHub != null ==>
                Lookup(youtubeHub.session2Channel, sessionId) ==
                  YoutubeHub.ChannelIds(ComposedHubWs.Select(resources, Youtube))
    {
      var discordResources, youtubeResources := Partition(resources);
      if discordHub != null {
        var _, _, _, _ := discordHub.RegisterSessionResources(sessionId, discordResources);
      }
      if youtubeHub != null {
        var _, _ := youtubeHub.RegisterSessionResources(sessionId, youtubeResources);
      }
      registeredSessions := registeredSessions[sessionId := true];
    }

    /** `AddSession`: marks the session as connected but not yet registered; the
        platform hubs are left as they are. */
    method AddSession(sessionId: string)
      requires Valid()
      modifies this
      ensures Valid()
      ensures registeredSessions == old(registeredSessions)[sessionId := false]
    {
      registeredSessions := registeredSessions[sessionId := false];
      if discordHub != null {
        discordHub.AddSession(sessionId);
      }
      if youtubeHub != null {
        youtubeHub.AddSession(sessionId);
      }
    }
  }
}
