// aya-backend/server-ws/chat_service/youtube/emitter.go: the YouTube emitter of
// the newest backend. `resource2Subscriber` counts the sessions per channel id;
// the register starts polling a channel on its first subscriber and stops it on
// its last. The OAuth set-up goroutine is not modelled (see the README).

module YoutubeEmitter {
  import opened Common
  import opened ChatMessage
  import opened SessionIndex
  import YoutubeRegisterWs

  /** Where the emitter files a descriptor: YouTube channels by id, every other kind nowhere. */
  function ChannelKey(info: Info): (k: Option<string>)
    ensures k.Some? <==> info.YoutubeInfo?
  {
    if info.YoutubeInfo? then Some(info.youtubeChannelId) else None
  }

  class YoutubeEmitter {
    var resource2Subscriber: Index
    const register: YoutubeRegisterWs.YoutubeRegister
    var closed: bool

    /** Until the emitter is closed, the channels with subscribers are exactly the
        channels the register polls. */
    ghost predicate Valid()
      reads this, register
    {
      NoEmpty(resource2Subscriber) && register.Valid() && register.serviceSet &&
      (!closed ==> resource2Subscriber.Keys == register.channelKillSignal.Keys)
    }

    /** `NewEmitter` once the API-key service exists: an empty subscriber map and a
        fresh register built with that service. */
    constructor ()
      ensures Valid() && fresh(register)
      ensures resource2Subscriber == map[] && !closed
      ensures register.channelKillSignal == map[] && register.signalLog == []
    {
      resource2Subscriber := map[];
      register := new YoutubeRegisterWs.YoutubeRegister(true);
      closed := false;
    }

    /** `Register`: ignores other descriptor kinds; adds the subscriber, and has the
        register start polling the channel exactly when it had no subscriber. */
    method Register(subscriber: string, resourceInfo: Info)
      requires Valid()
      modifies this, register
      ensures Valid()
      ensures closed == old(closed)
      ensures resource2Subscriber == Step(old(resource2Subscriber), EmitterCall.Register(subscriber, resourceInfo), ChannelKey)
      ensures !resourceInfo.YoutubeInfo? || resourceInfo.youtubeChannelId in old(resource2Subscriber) ==>
                unchanged(register)
      ensures register.signalLog == old(register.signalLog)
      ensures !old(closed) && resourceInfo.YoutubeInfo? && resourceInfo.youtubeChannelId !in old(resource2Subscriber) ==>
                register.channelKillSignal ==
                  old(register.channelKillSignal)[resourceInfo.youtubeChannelId := old(register.signalsMade)]
    {
      if !resourceInfo.YoutubeInfo? {
        return;
      }
      var channelId := resourceInfo.youtubeChannelId;
      if channelId !in resource2Subscriber {
        assert Lookup(resource2Subscriber, channelId) + {subscriber} == {subscriber};
        resource2Subscriber := resource2Subscriber[channelId := {subscriber}];
        register.RegisterChannel(channelId);
      } else {
        resource2Subscriber := resource2Subscriber[channelId := resource2Subscriber[channelId] + {subscriber}];
      }
    }

    /** `Deregister`: ignores other kinds and channels without subscribers; removes the
        subscriber, and when none is left drops the channel and has the register stop
        polling it. */
    method Deregister(subscriber: string, resourceInfo: Info)
      requires Valid()
      modifies this, register
      ensures Valid()
      ensures closed == old(closed)
      ensures resource2Subscriber == Step(old(resource2Subscriber), EmitterCall.Deregister(subscriber, resourceInfo), ChannelKey)
      ensures !resourceInfo.YoutubeInfo? || resourceInfo.youtubeChannelId !in old(resource2Subscriber) ||
              !(old(resource2Subscriber)[resourceInfo.youtubeChannelId] <= {subscriber}) ==>
                unchanged(register)
      ensures resourceInfo.YoutubeInfo? && resourceInfo.youtubeChannelId in old(resource2Subscriber) &&
              old(resource2Subscriber)[resourceInfo.youtubeChannelId] <= {subscriber} ==>
                register.channelKillSignal == old(register.channelKillSignal) - {resourceInfo.youtubeChannelId}
    {
      if !resourceInfo.YoutubeInfo? {
        return;
      }
      var channelId := resourceInfo.youtubeChannelId;
      if channelId !in resource2Subscriber {
        return;
      }
      var rest := resource2Subscriber[channelId] - {subscriber};
      if rest == {} {
        resource2Subscriber := resource2Subscriber - {channelId};
        register.DeregisterChannel(channelId);
      } else {
        resource2Subscriber := resource2Subscriber[channelId := rest];
      }
    }

    /** `CloseEmitter`: the register stops every channel and its API caller; the
        subscriber map is left as it was. */
    method CloseEmitter()
      requires Valid()
      modifies this, register
      ensures Valid() && closed
      ensures resource2Subscriber == old(resource2Subscriber)
      ensures register.channelKillSignal == map[] && register.apiCallerStopped
    {
      var _ := register.Stop();
      closed := true;
    }
  }
}
