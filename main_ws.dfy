// aya-backend/server-ws/main.go: the websocket server's start-up and main
// loop. `parseEmitterConfig` turns the SOURCES setting into the flags of the
// platforms to start; the loop hands every update to the sessions the hub
// finds for the update's source and routing key.

module MainWs {
  import opened Common
  import opened ChatMessage
  import ComposedHubWs
  import DiscordHub
  import WebsocketWs

  /** `composed.MessageChannelConfig`: which platforms to start. */
  datatype MessageChannelConfig = MessageChannelConfig(test: bool, discord: bool, youtube: bool, twitch: bool)

  const AllOff: MessageChannelConfig := MessageChannelConfig(false, false, false, false)

  /** One case of the switch: a known token turns its flag on, any other changes nothing. */
  function Switch(config: MessageChannelConfig, token: string): MessageChannelConfig
  {
    match token
    case "test_source" => config.(test := true)
    case "discord" => config.(discord := true)
    case "youtube" => config.(youtube := true)
    case "twitch" => config.(twitch := true)
    case _ => config
  }

  /** The flags after the switch ran over `tokens` in order, from all off. */
  function ConfigOf(tokens: seq<string>): MessageChannelConfig
  {
    if tokens == [] then AllOff else Switch(ConfigOf(tokens[..|tokens| - 1]), tokens[|tokens| - 1])
  }

  /** A flag is on exactly when its token is one of the tokens. */
  lemma {:induction false} ConfigOfMembers(tokens: seq<string>)
    ensures ConfigOf(tokens).test <==> "test_source" in tokens
    ensures ConfigOf(tokens).discord <==> "discord" in tokens
    ensures ConfigOf(tokens).youtube <==> "youtube" in tokens
    ensures ConfigOf(tokens).twitch <==> "twitch" in tokens
  {
    if tokens != [] {
      var n := |tokens| - 1;
      ConfigOfMembers(tokens[..n]);
      assert tokens == tokens[..n] + [tokens[n]];
    }
  }

  /** Token order and repetitions do not matter: the same tokens give the same flags. */
  lemma SameTokensSameConfig(a: seq<string>, b: seq<string>)
    requires forall t :: t in a <==> t in b
    ensures ConfigOf(a) == ConfigOf(b)
  {
    ConfigOfMembers(a);
    ConfigOfMembers(b);
  }

  /** Unknown tokens, the empty one and case variants included, change nothing. */
  lemma UnknownTokenIgnored(tokens: seq<string>, t: string)
    requires t !in {"test_source", "discord", "youtube", "twitch"}
    ensures ConfigOf(tokens + [t]) == ConfigOf(tokens)
    ensures ConfigOf([t] + tokens) == ConfigOf(tokens)
  {
    assert (tokens + [t])[..|tokens|] == tokens;
    ConfigOfMembers([t] + tokens);
    ConfigOfMembers(tokens);
  }

  /** `parseEmitterConfig`: all flags off, then each space-separated token of the
      setting switched on in turn. */
  method ParseEmitterConfig(msgSettingStr: string) returns (config: MessageChannelConfig)
    ensures config == ConfigOf(Split(msgSettingStr, ' '))
    ensures config.test <==> "test_source" in Split(msgSettingStr, ' ')
    ensures config.discord <==> "discord" in Split(msgSettingStr, ' ')
    ensures config.youtube <==> "youtube" in Split(msgSettingStr, ' ')
    ensures config.twitch <==> "twitch" in Split(msgSettingStr, ' ')
  {
    config := MessageChannelConfig(false, false, false, false);
    var enabledSources := Split(msgSettingStr, ' ');
    for i := 0 to |enabledSources|
      invariant config == ConfigOf(enabledSources[..i])
    {
      var enabledSource := enabledSources[i];
      assert enabledSources[..i + 1][..i] == enabledSources[..i];
      if enabledSource == "test_source" {
        config := config.(test := true);
      } else if enabledSource == "discord" {
        config := config.(discord := true);
      } else if enabledSource == "youtube" {
        config := config.(youtube := true);
      } else if enabledSource == "twitch" {
        config := config.(twitch := true);
      }
    }
    assert enabledSources[..|enabledSources|] == enabledSources;
    ConfigOfMembers(enabledSources);
  }

  /** An unset SOURCES variable starts nothing. */
  lemma EmptySettingStartsNothing()
    ensures ConfigOf(Split("", ' ')) == AllOff
  {
    assert Split("", ' ') == [""];
    assert [""][..0] == [];
  }

  /** One round of the main loop as written: the sessions `GetSessionId` finds for the
      update's source and routing key (`models.Resource{Source, ExtraFields}`) are sent
      the update. For a Discord update the hub answers in its slot-0 shape, so at most
      one watching session is reached, and with two or more watchers some watcher
      receives nothing. */
  method Dispatch(msgHub: ComposedHubWs.MessageHub, wsServer: WebsocketWs.WSServer, msg: MessageUpdate)
    returns (ghost sessionIds: seq<string>, ghost orders: seq<seq<nat>>)
    modifies wsServer
    ensures wsServer.chanMap == old(wsServer.chanMap)
    ensures |orders| == |sessionIds|
    ensures wsServer.deliveries == old(wsServer.deliveries) + WebsocketWs.Fanout(wsServer.chanMap, sessionIds, orders, msg)
    ensures forall d :: d in WebsocketWs.Fanout(wsServer.chanMap, sessionIds, orders, msg) <==>
              d.msg == msg && d.sessionId in sessionIds && d.connId in WebsocketWs.Connections(wsServer.chanMap, d.sessionId)
    ensures msg.message.source != Discord ==>
              forall d :: d in WebsocketWs.Fanout(wsServer.chanMap, sessionIds, orders, msg) <==>
                d.msg == msg && d.sessionId in msgHub.Watchers(ResourceValue(Resource(msg.message.source, msg.extraFields))) &&
                d.connId in WebsocketWs.Connections(wsServer.chanMap, d.sessionId)
    ensures msg.message.source == Discord ==>
              forall d :: d in WebsocketWs.Fanout(wsServer.chanMap, sessionIds, orders, msg) ==>
                d.sessionId == "" || d.sessionId in msgHub.Watchers(ResourceValue(Resource(msg.message.source, msg.extraFields)))
    ensures msg.message.source == Discord ==>
              forall d, e ::
                (d in WebsocketWs.Fanout(wsServer.chanMap, sessionIds, orders, msg) &&
                 e in WebsocketWs.Fanout(wsServer.chanMap, sessionIds, orders, msg) &&
                 d.sessionId != "" && e.sessionId != "") ==> d.sessionId == e.sessionId
    ensures msg.message.source == Discord &&
            |msgHub.Watchers(ResourceValue(Resource(msg.message.source, msg.extraFields)))| >= 2 &&
            "" !in msgHub.Watchers(ResourceValue(Resource(msg.message.source, msg.extraFields))) ==>
              exists w :: w in msgHub.Watchers(ResourceValue(Resource(msg.message.source, msg.extraFields))) &&
                forall d :: d in WebsocketWs.Fanout(wsServer.chanMap, sessionIds, orders, msg) ==> d.sessionId != w
  {
    var info := ResourceValue(Resource(msg.message.source, msg.extraFields));
    var ids := msgHub.GetSessionId(info);
    sessionIds := ids;
    orders := wsServer.SendMessageToSessions(ids, msg);
    ghost var watchers := msgHub.Watchers(info);
    ghost var fan := WebsocketWs.Fanout(wsServer.chanMap, sessionIds, orders, msg);
    forall d ensures d in fan <==>
              d.msg == msg && d.sessionId in sessionIds && d.connId in WebsocketWs.Connections(wsServer.chanMap, d.sessionId)
    {
      WebsocketWs.FanoutMembers(wsServer.chanMap, sessionIds, orders, msg, d);
    }
    if msg.message.source == Discord {
      forall d, e | d in fan && e in fan && d.sessionId != "" && e.sessionId != ""
        ensures d.sessionId == e.sessionId
      {
        DiscordHub.SlotZeroNamesOne(sessionIds, watchers, d.sessionId, e.sessionId);
      }
      forall d | d in fan && d.sessionId != ""
        ensures d.sessionId in watchers
      {
        DiscordHub.SlotZeroNamesOne(sessionIds, watchers, d.sessionId, d.sessionId);
      }
      if |watchers| >= 2 && "" !in watchers {
        var first := sessionIds[0];
        assert |watchers - {first}| >= 1;
        var w :| w in watchers - {first};
        forall d | d in fan
          ensures d.sessionId != w
        {
          if d.sessionId != "" {
            DiscordHub.SlotZeroNamesOne(sessionIds, watchers, d.sessionId, first);
          }
        }
      }
    }
  }

  /** One round of the main loop with the corrected Discord lookup: every session
      watching the update's source and routing key is sent the update on each of its
      open connections, and nothing else is sent. */
  method DispatchCorrected(msgHub: ComposedHubWs.MessageHub, wsServer: WebsocketWs.WSServer, msg: MessageUpdate)
    returns (ghost sessionIds: seq<string>, ghost orders: seq<seq<nat>>)
    modifies wsServer
    ensures Enumerates(sessionIds, msgHub.Watchers(ResourceValue(Resource(msg.message.source, msg.extraFields))))
    ensures wsServer.chanMap == old(wsServer.chanMap)
    ensures |orders| == |sessionIds|
    ensures wsServer.deliveries == old(wsServer.deliveries) + WebsocketWs.Fanout(wsServer.chanMap, sessionIds, orders, msg)
    ensures forall d :: d in WebsocketWs.Fanout(wsServer.chanMap, sessionIds, orders, msg) <==>
              d.msg == msg && d.sessionId in msgHub.Watchers(ResourceValue(Resource(msg.message.source, msg.extraFields))) &&
              d.connId in WebsocketWs.Connections(wsServer.chanMap, d.sessionId)
  {
    var ids := msgHub.GetSessionIdCorrected(ResourceValue(Resource(msg.message.source, msg.extraFields)));
    sessionIds := ids;
    orders := wsServer.SendMessageToSessions(ids, msg);
    forall d ensures d in WebsocketWs.Fanout(wsServer.chanMap, sessionIds, orders, msg) <==>
              d.msg == msg && d.sessionId in sessionIds && d.connId in WebsocketWs.Connections(wsServer.chanMap, d.sessionId)
    {
      WebsocketWs.FanoutMembers(wsServer.chanMap, sessionIds, orders, msg, d);
    }
  }
}
