// aya-backend/server/chat_service/twitch/emitter.go: the Twitch emitter.
// `resource2Subscriber` holds, per channel, the sessions that want it; the
// current IRC client joins a channel on its first subscriber and departs on its
// last, and a client installed by `setClient` starts with no channel joined.
// The IRC client is an id plus a ghost log of the calls made on it; the two
// output channels are sequences of what was sent on them.

module TwitchEmitter {
  import opened Common
  import opened ChatMessage
  import opened SessionIndex
  import TwitchParser

  /** A call on a twitch-irc client, tagged with the client it went to. */
  datatype ClientCall =
    | Join(client: nat, channel: string)
    | Depart(client: nat, channel: string)
    | Disconnect(client: nat)
    | Connect(client: nat)

  /** Where the emitter files a descriptor: Twitch channels by name, every other kind nowhere. */
  function ChannelKey(info: Info): (k: Option<string>)
    ensures k.Some? <==> info.TwitchInfo?
  {
    if info.TwitchInfo? then Some(info.twitchChannelName) else None
  }

  class TwitchEmitter {
    var resource2Subscriber: Index
    /** False while `resource2Subscriber` is the nil map `NewEmitter` leaves it as. */
    var mapMade: bool
    var client: nat
    var updates: seq<MessageUpdate>
    var errors: nat
    ghost var clientCalls: seq<ClientCall>
    /** The channels joined on the current client and not departed from it since. */
    ghost var joined: set<string>
    /** Whether `setClient` has replaced the client the emitter was built with. */
    ghost var clientReplaced: bool

    /** Every key has a subscriber, only subscribed channels are joined on the current
        client, and until the client is replaced those are all the subscribed channels. */
    ghost predicate Valid()
      reads this
    {
      NoEmpty(resource2Subscriber) &&
      joined <= resource2Subscriber.Keys &&
      (!clientReplaced ==> joined == resource2Subscriber.Keys) &&
      (!mapMade ==> resource2Subscriber == map[])
    }

    /** `NewEmitter` as written: the subscriber map is never made, so it stays nil. */
    constructor NewEmitter(anonymousClient: nat)
      ensures Valid() && !mapMade
      ensures resource2Subscriber == map[] && client == anonymousClient
      ensures updates == [] && errors == 0 && clientCalls == [] && joined == {} && !clientReplaced
    {
      resource2Subscriber := map[];
      mapMade := false;
      client := anonymousClient;
      updates, errors := [], 0;
      clientCalls := [];
      joined, clientReplaced := {}, false;
    }

    /** `NewEmitter` as evidently intended: the subscriber map is made empty. */
    constructor NewEmitterInitialised(anonymousClient: nat)
      ensures Valid() && mapMade
      ensures resource2Subscriber == map[] && client == anonymousClient
      ensures updates == [] && errors == 0 && clientCalls == [] && joined == {} && !clientReplaced
    {
      resource2Subscriber := map[];
      mapMade := true;
      client := anonymousClient;
      updates, errors := [], 0;
      clientCalls := [];
      joined, clientReplaced := {}, false;
    }

    /** `Register`: ignores other descriptor kinds; adds the subscriber to the channel's
        set, and joins the channel on the current client exactly when the set is new.
        While the map is nil, the first write into it panics and nothing changes. */
    method Register(subscriber: string, resourceInfo: Info) returns (panicked: bool)
      requires Valid()
      modifies this
      ensures Valid()
      ensures panicked <==> resourceInfo.TwitchInfo? && !mapMade
      ensures mapMade == old(mapMade) && client == old(client) && clientReplaced == old(clientReplaced)
      ensures updates == old(updates) && errors == old(errors)
      ensures panicked ==>
                resource2Subscriber == old(resource2Subscriber) && clientCalls == old(clientCalls) && joined == old(joined)
      ensures !panicked ==>
                resource2Subscriber == Step(old(resource2Subscriber), EmitterCall.Register(subscriber, resourceInfo), ChannelKey)
      ensures !resourceInfo.TwitchInfo? ==> clientCalls == old(clientCalls) && joined == old(joined)
      ensures resourceInfo.TwitchInfo? && !panicked ==>
                var c := resourceInfo.twitchChannelName;
                && clientCalls == old(clientCalls) + (if c in old(resource2Subscriber) then [] else [Join(client, c)])
                && joined == old(joined) + (if c in old(resource2Subscriber) then {} else {c})
    {
      panicked := false;
      if !resourceInfo.TwitchInfo? {
        return;
      }
      if !mapMade {
        return true;
      }
      var channelName := resourceInfo.twitchChannelName;
      if channelName !in resource2Subscriber {
        assert Lookup(resource2Subscriber, channelName) + {subscriber} == {subscriber};
        resource2Subscriber := resource2Subscriber[channelName := {subscriber}];
        clientCalls := clientCalls + [Join(client, channelName)];
        joined := joined + {channelName};
      } else {
        resource2Subscriber := resource2Subscriber[channelName := resource2Subscriber[channelName] + {subscriber}];
      }
    }

    /** `Deregister`: ignores other kinds and channels without subscribers; removes the
        subscriber, and when the set empties drops the key and departs the channel. */
    method Deregister(subscriber: string, resourceInfo: Info)
      requires Valid()
      modifies this
      ensures Valid()
      ensures mapMade == old(mapMade) && client == old(client) && clientReplaced == old(clientReplaced)
      ensures updates == old(updates) && errors == old(errors)
      ensures resource2Subscriber == Step(old(resource2Subscriber), EmitterCall.Deregister(subscriber, resourceInfo), ChannelKey)
      ensures !resourceInfo.TwitchInfo? || resourceInfo.twitchChannelName !in old(resource2Subscriber) ==>
                clientCalls == old(clientCalls) && joined == old(joined)
      ensures resourceInfo.TwitchInfo? && resourceInfo.twitchChannelName in old(resource2Subscriber) ==>
                var c := resourceInfo.twitchChannelName;
                && clientCalls == old(clientCalls) + (if old(resource2Subscriber)[c] <= {subscriber} then [Depart(client, c)] else [])
                && joined == old(joined) - (if old(resource2Subscriber)[c] <= {subscriber} then {c} else {})
    {
      if !resourceInfo.TwitchInfo? {
        return;
      }
      var channelName := resourceInfo.twitchChannelName;
      if channelName !in resource2Subscriber {
        return;
      }
      var rest := resource2Subscriber[channelName] - {subscriber};
      if rest == {} {
        resource2Subscriber := resource2Subscriber - {channelName};
        clientCalls := clientCalls + [Depart(client, channelName)];
        joined := joined - {channelName};
      } else {
        resource2Subscriber := resource2Subscriber[channelName := rest];
      }
    }

    /** The private-message handler: every parsed message is sent on, whichever channel
        it came from and whether or not anyone subscribed to it. */
    method OnPrivateMessage(msg: TwitchParser.PrivateMessage)
      modifies this
      ensures updates == old(updates) + [TwitchParser.ParseMessage(msg)]
      ensures resource2Subscriber == old(resource2Subscriber) && clientCalls == old(clientCalls)
      ensures mapMade == old(mapMade) && client == old(client) && errors == old(errors)
      ensures joined == old(joined) && clientReplaced == old(clientReplaced)
    {
      updates := updates + [TwitchParser.ParseMessage(msg)];
    }

    /** `setClient`: disconnects the current client (reporting a failure on the error
        channel), installs the new one and connects it. The subscriber map is kept, but
        no channel is joined on the new client: the channels subscribed so far receive
        nothing from it, and a later subscriber to one of them does not join it either.
        `disconnectFails`/`connectFails` are the clients' answers. */
    method SetClient(newClient: nat, disconnectFails: bool, connectFails: bool) returns (failed: bool)
      requires Valid()
      modifies this
      ensures Valid()
      ensures failed == connectFails
      ensures client == newClient && joined == {} && clientReplaced
      ensures resource2Subscriber == old(resource2Subscriber) && mapMade == old(mapMade)
      ensures clientCalls == old(clientCalls) + [Disconnect(old(client)), Connect(newClient)]
      ensures errors == old(errors) + (if disconnectFails then 1 else 0)
      ensures updates == old(updates)
    {
      clientCalls := clientCalls + [Disconnect(client)];
      if disconnectFails {
        errors := errors + 1;
      }
      client := newClient;
      clientCalls := clientCalls + [Connect(newClient)];
      joined, clientReplaced := {}, true;
      failed := connectFails;
    }

    /** `CloseEmitter`: disconnects the current client and returns its answer. */
    method CloseEmitter(disconnectFails: bool) returns (failed: bool)
      requires Valid()
      modifies this
      ensures Valid()
      ensures failed == disconnectFails
      ensures clientCalls == old(clientCalls) + [Disconnect(client)]
      ensures resource2Subscriber == old(resource2Subscriber) && client == old(client)
      ensures mapMade == old(mapMade) && updates == old(updates) && errors == old(errors)
      ensures joined == old(joined) && clientReplaced == old(clientReplaced)
    {
      clientCalls := clientCalls + [Disconnect(client)];
      failed := disconnectFails;
    }
  }
}
