// aya-backend/server-ws/hubs/composed_hub.go: the message hub of the newest
// backend. It dispatches on a resource's Source tag to the Discord, YouTube
// and Twitch hubs, splits a session's resource list between them, and keeps
// `registeredSessions` (false once a session connects, true once its
// resources were registered). The periodic database refresh is not modelled.
// aya-backend/server-ws/hubs/discord.go and youtube.go are not part of this
// model: the hubs of aya-backend/server/hubs stand in for them. `GetSessionId`
// and `RemoveSession` call the platform hubs' members the program calls;
// `GetSessionIdCorrected` and `RemoveSessionCorrected` call their corrected
// counterparts.

module ComposedHubWs {
  import opened Common
  import opened ChatMessage
  import opened SessionIndex
  import DiscordHub
  import YoutubeHub
  import TwitchHub

  /** The descriptor a resource of type `kind` must carry to be used. */
  predicate Accepts(kind: int, info: Info)
  {
    (kind == Discord && info.DiscordInfo?) ||
    (kind == Youtube && info.YoutubeInfo?) ||
    (kind == Twitch && info.TwitchInfo?)
  }

  /** The descriptors of the resources of type `kind`, in list order; entries of
      another type, or whose descriptor is not the one the type expects, are dropped. */
  function Select(resources: seq<Resource>, kind: int): (infos: seq<Info>)
    ensures forall i :: 0 <= i < |infos| ==> Accepts(kind, infos[i])
    ensures |infos| <= |resources|
  {
    if resources == [] then []
    else
      var last := resources[|resources| - 1];
      var init := Select(resources[..|resources| - 1], kind);
      if last.resourceType == kind && Accepts(kind, last.resourceInfo) then init + [last.resourceInfo] else init
  }

  /** A descriptor is selected exactly when the list holds a resource of that type carrying it. */
  lemma {:induction false} SelectMembers(resources: seq<Resource>, kind: int)
    ensures forall x :: x in Select(resources, kind) <==> Resource(kind, x) in resources && Accepts(kind, x)
  {
    if resources != [] {
      SelectMembers(resources[..|resources| - 1], kind);
      assert resources == resources[..|resources| - 1] + [resources[|resources| - 1]];
    }
  }

  /** Selection keeps list order: selecting from a concatenation concatenates the selections. */
  lemma {:induction false} SelectAppend(xs: seq<Resource>, ys: seq<Resource>, kind: int)
    ensures Select(xs + ys, kind) == Select(xs, kind) + Select(ys, kind)
  {
    if ys == [] {
      assert xs + ys == xs;
    } else {
      var n := |ys| - 1;
      SelectAppend(xs, ys[..n], kind);
      assert (xs + ys)[..|xs + ys| - 1] == xs + ys[..n];
      assert (xs + ys)[|xs + ys| - 1] == ys[n];
    }
  }

  /** The loop at the top of RegisterSessionResources: one list per platform. */
  method Partition(resources: seq<Resource>)
      returns (discordResources: seq<DiscordDescriptor>, youtubeResources: seq<YoutubeDescriptor>,
               twitchResources: seq<TwitchDescriptor>)
    ensures discordResources == Select(resources, Discord)
    ensures youtubeResources == Select(resources, Youtube)
    ensures twitchResources == Select(resources, Twitch)
  {
    discordResources, youtubeResources, twitchResources := [], [], [];
    var i := 0;
    while i < |resources|
      invariant 0 <= i <= |resources|
      invariant discordResources == Select(resources[..i], Discord)
      invariant youtubeResources == Select(resources[..i], Youtube)
      invariant twitchResources == Select(resources[..i], Twitch)
    {
      assert resources[..i + 1][..i] == resources[..i];
      var resource := resources[i];
      if resource.resourceType == Discord {
        if resource.resourceInfo.DiscordInfo? {
          discordResources := discordResources + [resource.resourceInfo];
        }
      } else if resource.resourceType == Youtube {
        if resource.resourceInfo.YoutubeInfo? {
          youtubeResources := youtubeResources + [resource.resourceInfo];
        }
      } else if resource.resourceType == Twitch {
        if resource.resourceInfo.TwitchInfo? {
          twitchResources := twitchResources + [resource.resourceInfo];
        }
      }
      i := i + 1;
    }
    assert resources[..i] == resources;
  }

  class MessageHub {
    const discordHub: DiscordHub.DiscordResourceHub?
    const youtubeHub: YoutubeHub.YoutubeResourceHub?
    const twitchHub: TwitchHub.TwitchResourceHub?
    var registeredSessions: map<string, bool>

    ghost predicate Valid()
      reads this, discordHub, youtubeHub, twitchHub
    {
      (discordHub != null ==> discordHub.Valid()) &&
      (youtubeHub != null ==> youtubeHub.Valid()) &&
      (twitchHub != null ==> twitchHub.Valid())
    }

    /** `NewMessageHub`: three empty platform hubs and no registered session. */
    constructor ()
      ensures Valid()
      ensures fresh(discordHub) && fresh(youtubeHub) && fresh(twitchHub)
      ensures registeredSessions == map[]
    {
      discordHub := new DiscordHub.DiscordResourceHub();
      youtubeHub := new YoutubeHub.YoutubeResourceHub();
      twitchHub := new TwitchHub.TwitchResourceHub();
      registeredSessions := map[];
    }

    /** The sessions the dispatch answers with: those of the matching platform hub,
        and none for a value that is not a Resource, an unknown type, a missing hub
        or a descriptor of the wrong kind. */
    ghost function Watchers(resourceInfo: Info): set<string>
      reads this, discordHub, youtubeHub, twitchHub
    {
      if !resourceInfo.ResourceValue? then {}
      else
        var r := resourceInfo.resource;
        if r.resourceType == Discord && discordHub != null && r.resourceInfo.DiscordInfo? then
          Lookup(discordHub.guildChannel2Session, DiscordHub.KeyOf(r.resourceInfo))
        else if r.resourceType == Youtube && youtubeHub != null && r.resourceInfo.YoutubeInfo? then
          Lookup(youtubeHub.channel2Session, r.resourceInfo.youtubeChannelId)
        else if r.resourceType == Twitch && twitchHub != null && r.resourceInfo.TwitchInfo? then
          Lookup(twitchHub.channelName2Session, r.resourceInfo.twitchChannelName)
        else {}
    }

    /** `GetSessionId` as written: the matching platform hub answers, the Discord one
        in its slot-0 shape; nothing for a non-Resource value, an unknown type or a
        missing hub. */
    method GetSessionId(resourceInfo: Info) returns (sessions: seq<string>)
      ensures !resourceInfo.ResourceValue? ==> sessions == []
      ensures resourceInfo.ResourceValue? && resourceInfo.resource.resourceType !in {Discord, Youtube, Twitch} ==>
                sessions == []
      ensures resourceInfo.ResourceValue? && resourceInfo.resource.resourceType == Discord ==>
                DiscordHub.SlotZero(sessions, Watchers(resourceInfo))
      ensures !(resourceInfo.ResourceValue? && resourceInfo.resource.resourceType == Discord) ==>
                Enumerates(sessions, Watchers(resourceInfo))
    {
      if !resourceInfo.ResourceValue? {
        return [];
      }
      var r := resourceInfo.resource;
      if r.resourceType == Discord {
        if discordHub != null {
          sessions := discordHub.GetSessionId(r.resourceInfo);
        } else {
          sessions := [];
        }
      } else if r.resourceType == Youtube {
        if youtubeHub != null {
          sessions := youtubeHub.GetSessionId(r.resourceInfo);
        } else {
          sessions := [];
        }
      } else if r.resourceType == Twitch {
        if twitchHub != null {
          sessions := twitchHub.GetSessionId(r.resourceInfo);
        } else {
          sessions := [];
        }
      } else {
        sessions := [];
      }
    }

    /** GetSessionId with the corrected Discord lookup: each session of the matching
        platform hub once, and nothing for a non-Resource value, an unknown type or a
        missing hub. */
    method GetSessionIdCorrected(resourceInfo: Info) returns (sessions: seq<string>)
      ensures Enumerates(sessions, Watchers(resourceInfo))
      ensures !resourceInfo.ResourceValue? ==> sessions == []
      ensures resourceInfo.ResourceValue? && resourceInfo.resource.resourceType !in {Discord, Youtube, Twitch} ==>
                sessions == []
    {
      if !resourceInfo.ResourceValue? {
        return [];
      }
      var r := resourceInfo.resource;
      if r.resourceType == Discord {
        if discordHub != null {
          sessions := discordHub.GetSessionIdCorrected(r.resourceInfo);
        } else {
          sessions := [];
        }
      } else if r.resourceType == Youtube {
        if youtubeHub != null {
          sessions := youtubeHub.GetSessionId(r.resourceInfo);
        } else {
          sessions := [];
        }
      } else if r.resourceType == Twitch {
        if twitchHub != null {
          sessions := twitchHub.GetSessionId(r.resourceInfo);
        } else {
          sessions := [];
        }
      } else {
        sessions := [];
      }
    }

    /** `RemoveSession` as written: forgets the session and unlinks it from the Discord
        and YouTube hubs only, which make no emitter call; the Twitch hub keeps every
        channel the session had. */
    method RemoveSession(sessionId: string)
      requires Valid() && discordHub != null && youtubeHub != null
      modifies this, discordHub, youtubeHub
      ensures Valid()
      ensures registeredSessions == old(registeredSessions) - {sessionId}
      ensures sessionId !in discordHub.session2GuildChannel && sessionId !in youtubeHub.session2Channel
      ensures discordHub.emitterCalls == old(discordHub.emitterCalls)
      ensures youtubeHub.emitterCalls == old(youtubeHub.emitterCalls)
      ensures twitchHub != null ==>
                Lookup(twitchHub.session2ChannelName, sessionId) == old(Lookup(twitchHub.session2ChannelName, sessionId))
      ensures twitchHub != null ==>
                forall c :: c in Lookup(twitchHub.session2ChannelName, sessionId) ==>
                              sessionId in Lookup(twitchHub.channelName2Session, c)
    {
      registeredSessions := registeredSessions - {sessionId};
      discordHub.RemoveSession(sessionId);
      youtubeHub.RemoveSession(sessionId);
    }

    /** RemoveSession as intended: the session leaves all three platform hubs, each
        issuing one emitter Deregister per room the session leaves. */
    method RemoveSessionCorrected(sessionId: string)
        returns (ghost discordRemoved: seq<Info>, ghost discordKeys: seq<string>,
                 ghost youtubeRemoved: seq<Info>, ghost twitchRemoved: seq<Info>)
      requires Valid() && discordHub != null && youtubeHub != null && twitchHub != null
      modifies this, discordHub, youtubeHub, twitchHub
      ensures Valid()
      ensures DiscordHub.Decodes(discordRemoved, discordKeys, old(Lookup(discordHub.session2GuildChannel, sessionId)))
      ensures discordHub.emitterCalls == old(discordHub.emitterCalls) + DeregCalls(sessionId, discordRemoved)
      ensures YoutubeHub.ListsRooms(youtubeRemoved, old(Lookup(youtubeHub.session2Channel, sessionId)))
      ensures youtubeHub.emitterCalls == old(youtubeHub.emitterCalls) + DeregCalls(sessionId, youtubeRemoved)
      ensures TwitchHub.ListsRooms(twitchRemoved, old(Lookup(twitchHub.session2ChannelName, sessionId)))
      ensures twitchHub.emitterCalls == old(twitchHub.emitterCalls) + DeregCalls(sessionId, twitchRemoved)
      ensures registeredSessions == old(registeredSessions) - {sessionId}
      ensures sessionId !in discordHub.session2GuildChannel && sessionId !in youtubeHub.session2Channel
      ensures sessionId !in twitchHub.session2ChannelName
      ensures forall c :: sessionId !in Lookup(twitchHub.channelName2Session, c)
      ensures forall c :: sessionId !in Lookup(youtubeHub.channel2Session, c)
      ensures forall k :: sessionId !in Lookup(discordHub.guildChannel2Session, k)
    {
      registeredSessions := registeredSessions - {sessionId};
      discordRemoved, discordKeys := discordHub.RemoveSessionDeregistering(sessionId);
      youtubeRemoved := youtubeHub.RemoveSessionDeregistering(sessionId);
      twitchRemoved := twitchHub.RemoveSessionDeregistering(sessionId);
      forall c ensures sessionId !in Lookup(twitchHub.channelName2Session, c) {
        assert c !in Lookup(twitchHub.session2ChannelName, sessionId);
      }
      forall c ensures sessionId !in Lookup(youtubeHub.channel2Session, c) {
        assert c !in Lookup(youtubeHub.session2Channel, sessionId);
      }
      forall k ensures sessionId !in Lookup(discordHub.guildChannel2Session, k) {
        assert k !in Lookup(discordHub.session2GuildChannel, sessionId);
      }
    }

    /** `RegisterSessionResources`: every present platform hub is given its share of the
        list, an empty one included, so the session's rooms there become exactly the
        listed ones; then the session is marked registered. */
    method RegisterSessionResources(sessionId: string, resources: seq<Resource>)
      requires Valid()
      modifies this, discordHub, youtubeHub, twitchHub
      ensures Valid()
      ensures registeredSessions == old(registeredSessions)[sessionId := true]
      ensures discordHub != null &&
              (forall x :: x in Select(resources, Discord) ==> DiscordHub.SlashFree(x)) ==>
                Lookup(discordHub.session2GuildChannel, sessionId) == DiscordHub.KeysOf(Select(resources, Discord))
      ensures youtubeHub != null ==>
                Lookup(youtubeHub.session2Channel, sessionId) == YoutubeHub.ChannelIds(Select(resources, Youtube))
      ensures twitchHub != null ==>
                Lookup(twitchHub.session2ChannelName, sessionId) == TwitchHub.ChannelNames(Select(resources, Twitch))
    {
      var discordResources, youtubeResources, twitchResources := Partition(resources);
      if discordHub != null {
        var _, _, _, _ := discordHub.RegisterSessionResources(sessionId, discordResources);
      }
      if youtubeHub != null {
        var _, _ := youtubeHub.RegisterSessionResources(sessionId, youtubeResources);
      }
      if twitchHub != null {
        var _, _ := twitchHub.RegisterSessionResources(sessionId, twitchResources);
      }
      registeredSessions := registeredSessions[sessionId := true];
    }

    /** `AddSession`: marks the session as connected but not yet registered, overwriting
        an earlier true; the platform hubs are left as they are. */
    method AddSession(sessionId: string)
      requires Valid()
      modifies this
      ensures Valid()
      ensures registeredSessions == old(registeredSessions)[sessionId := false]
    {
      registeredSessions := registeredSessions[sessionId := false];
      if discordHub != null {
        discordHub.AddSession(sessionId);
      }
      if youtubeHub != null {
        youtubeHub.AddSession(sessionId);
      }
      if twitchHub != null {
        twitchHub.AddSession(sessionId);
      }
    }
  }
}
