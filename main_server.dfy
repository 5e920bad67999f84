// aya-backend/server/main.go: the older backend's start-up and main loop.
// `parseEmitterConfig` knows the Test, Discord and YouTube platforms only.
// The main loop asks the hub for the sessions of the update's bare routing key
// (`msg.ExtraFields`), while the hub only answers for a `models.Resource`
// wrapping one, so as written no update reaches any session.

module MainServer {
  import opened Common
  import opened ChatMessage
  import ComposedHub
  import DiscordHub
  import Websocket
  import WebsocketWs

  /** `composed.MessageChannelConfig` of this backend: which platforms to start. */
  datatype MessageChannelConfig = MessageChannelConfig(test: bool, discord: bool, youtube: bool)

  const AllOff: MessageChannelConfig := MessageChannelConfig(false, false, false)

  /** One case of the switch; "twitch" has no case here and is ignored like any unknown token. */
  function Switch(config: MessageChannelConfig, token: string): MessageChannelConfig
  {
    match token
    case "test_source" => config.(test := true)
    case "discord" => config.(discord := true)
    case "youtube" => config.(youtube := true)
    case _ => config
  }

  /** The flags after the switch ran over `tokens` in order, from all off. */
  function ConfigOf(tokens: seq<string>): MessageChannelConfig
  {
    if tokens == [] then AllOff else Switch(ConfigOf(tokens[..|tokens| - 1]), tokens[|tokens| - 1])
  }

  /** A flag is on exactly when its token is one of the tokens. */
  lemma {:induction false} ConfigOfMembers(tokens: seq<string>)
    ensures ConfigOf(tokens).test <==> "test_source" in tokens
    ensures ConfigOf(tokens).discord <==> "discord" in tokens
    ensures ConfigOf(tokens).youtube <==> "youtube" in tokens
  {
    if tokens != [] {
      var n := |tokens| - 1;
      ConfigOfMembers(tokens[..n]);
      assert tokens == tokens[..n] + [tokens[n]];
    }
  }

  /** Token order and repetitions do not matter: the same tokens give the same flags. */
  lemma SameTokensSameConfig(a: seq<string>, b: seq<string>)
    requires forall t :: t in a <==> t in b
    ensures ConfigOf(a) == ConfigOf(b)
  {
    ConfigOfMembers(a);
    ConfigOfMembers(b);
  }

  /** Unknown tokens, "twitch" among them, change nothing. */
  lemma UnknownTokenIgnored(tokens: seq<string>, t: string)
    requires t !in {"test_source", "discord", "youtube"}
    ensures ConfigOf(tokens + [t]) == ConfigOf(tokens)
    ensures ConfigOf([t] + tokens) == ConfigOf(tokens)
  {
    assert (tokens + [t])[..|tokens|] == tokens;
    ConfigOfMembers([t] + tokens);
    ConfigOfMembers(tokens);
  }

  /** `parseEmitterConfig`: all flags off, then each space-separated token switched on in turn. */
  method ParseEmitterConfig(msgSettingStr: string) returns (config: MessageChannelConfig)
    ensures config == ConfigOf(Split(msgSettingStr, ' '))
    ensures config.test <==> "test_source" in Split(msgSettingStr, ' ')
    ensures config.discord <==> "discord" in Split(msgSettingStr, ' ')
    ensures config.youtube <==> "youtube" in Split(msgSettingStr, ' ')
  {
    config := MessageChannelConfig(false, false, false);
    var enabledSources := Split(msgSettingStr, ' ');
    for i := 0 to |enabledSources|
      invariant config == ConfigOf(enabledSources[..i])
    {
      var enabledSource := enabledSources[i];
      assert enabledSources[..i + 1][..i] == enabledSources[..i];
      if enabledSource == "test_source" {
        config := config.(test := true);
      } else if enabledSource == "discord" {
        config := config.(discord := true);
      } else if enabledSource == "youtube" {
        config := config.(youtube := true);
      }
    }
    assert enabledSources[..|enabledSources|] == enabledSources;
    ConfigOfMembers(enabledSources);
  }

  /** One round of the main loop as written: the hub is asked with the bare routing key.
      An update whose key is not a `models.Resource`, as every platform emitter's is,
      reaches no session at all. */
  method Dispatch(msgHub: ComposedHub.MessageHub, wsServer: Websocket.WSServer, msg: MessageUpdate)
    returns (ghost sessionIds: seq<string>, ghost orders: seq<seq<nat>>)
    modifies wsServer
    ensures !(msg.extraFields.ResourceValue? && msg.extraFields.resource.resourceType == Discord) ==>
              Enumerates(sessionIds, msgHub.Watchers(msg.extraFields))
    ensures !msg.extraFields.ResourceValue? ==> sessionIds == [] && wsServer.deliveries == old(wsServer.deliveries)
    ensures wsServer.chanMap == old(wsServer.chanMap) && wsServer.sessionCalls == old(wsServer.sessionCalls)
    ensures |orders| == |sessionIds|
    ensures wsServer.deliveries == old(wsServer.deliveries) + WebsocketWs.Fanout(wsServer.chanMap, sessionIds, orders, msg)
  {
    var ids := msgHub.GetSessionId(msg.extraFields);
    sessionIds := ids;
    orders := wsServer.SendMessageToSessions(ids, msg);
  }

  /** The main loop as evidently intended: the hub is asked with
      `models.Resource{Source, ExtraFields}`, as the newest server does, and answers with
      the corrected Discord lookup, so the update reaches exactly the connections of the
      sessions watching its source and key. */
  method DispatchCorrected(msgHub: ComposedHub.MessageHub, wsServer: Websocket.WSServer, msg: MessageUpdate)
    returns (ghost sessionIds: seq<string>, ghost orders: seq<seq<nat>>)
    modifies wsServer
    ensures Enumerates(sessionIds, msgHub.Watchers(ResourceValue(Resource(msg.message.source, msg.extraFields))))
    ensures wsServer.chanMap == old(wsServer.chanMap) && wsServer.sessionCalls == old(wsServer.sessionCalls)
    ensures |orders| == |sessionIds|
    ensures wsServer.deliveries == old(wsServer.deliveries) + WebsocketWs.Fanout(wsServer.chanMap, sessionIds, orders, msg)
    ensures forall d :: d in WebsocketWs.Fanout(wsServer.chanMap, sessionIds, orders, msg) <==>
              d.msg == msg && d.sessionId in msgHub.Watchers(ResourceValue(Resource(msg.message.source, msg.extraFields))) &&
              d.connId in WebsocketWs.Connections(wsServer.chanMap, d.sessionId)
  {
    var ids := msgHub.GetSessionIdCorrected(ResourceValue(Resource(msg.message.source, msg.extraFields)));
    sessionIds := ids;
    orders := wsServer.SendMessageToSessions(ids, msg);
    forall d ensures d in WebsocketWs.Fanout(wsServer.chanMap, sessionIds, orders, msg) <==>
              d.msg == msg && d.sessionId in sessionIds && d.connId in WebsocketWs.Connections(wsServer.chanMap, d.sessionId)
    {
      WebsocketWs.FanoutMembers(wsServer.chanMap, sessionIds, orders, msg, d);
    }
  }

  /** A Discord update whose channel a session watches: the bare key finds no watcher,
      the wrapped key finds that session. */
  lemma BareKeyFindsNoWatcher(msgHub: ComposedHub.MessageHub, msg: MessageUpdate, session: string)
    requires msg.message.source == Discord && msg.extraFields.DiscordInfo?
    requires msgHub.discordHub != null
    requires DiscordHub.KeyOf(msg.extraFields) in msgHub.discordHub.guildChannel2Session
    requires session in msgHub.discordHub.guildChannel2Session[DiscordHub.KeyOf(msg.extraFields)]
    ensures msgHub.Watchers(msg.extraFields) == {}
    ensures session in msgHub.Watchers(ResourceValue(Resource(msg.message.source, msg.extraFields)))
  {
  }
}
