// aya-backend/composed_emitter.go: the first backend's platform settings.
// `parseConfig` knows the Test and Discord platforms only; the `break` at the
// end of each case leaves the switch, not the loop, so every token is read.

module LegacyComposedEmitter {
  import opened Common

  /** `MessageChannelConfig`: which platforms to start. */
  datatype MessageChannelConfig = MessageChannelConfig(discord: bool, test: bool)

  const AllOff: MessageChannelConfig := MessageChannelConfig(false, false)

  /** One case of the switch; "youtube", "twitch" and any other token are ignored. */
  function Switch(config: MessageChannelConfig, token: string): MessageChannelConfig
  {
    match token
    case "test_source" => config.(test := true)
    case "discord" => config.(discord := true)
    case _ => config
  }

  /** The flags after the switch ran over `tokens` in order, from all off. */
  function ConfigOf(tokens: seq<string>): MessageChannelConfig
  {
    if tokens == [] then AllOff else Switch(ConfigOf(tokens[..|tokens| - 1]), tokens[|tokens| - 1])
  }

  /** A flag is on exactly when its token is one of the tokens. */
  lemma {:induction false} ConfigOfMembers(tokens: seq<string>)
    ensures ConfigOf(tokens).test <==> "test_source" in tokens
    ensures ConfigOf(tokens).discord <==> "discord" in tokens
  {
    if tokens != [] {
      var n := |tokens| - 1;
      ConfigOfMembers(tokens[..n]);
      assert tokens == tokens[..n] + [tokens[n]];
    }
  }

  /** Token order and repetitions do not matter: the same tokens give the same flags. */
  lemma SameTokensSameConfig(a: seq<string>, b: seq<string>)
    requires forall t :: t in a <==> t in b
    ensures ConfigOf(a) == ConfigOf(b)
  {
    ConfigOfMembers(a);
    ConfigOfMembers(b);
  }

  /** Unknown tokens, "youtube" among them, change nothing. */
  lemma UnknownTokenIgnored(tokens: seq<string>, t: string)
    requires t != "test_source" && t != "discord"
    ensures ConfigOf(tokens + [t]) == ConfigOf(tokens)
    ensures ConfigOf([t] + tokens) == ConfigOf(tokens)
  {
    assert (tokens + [t])[..|tokens|] == tokens;
    ConfigOfMembers([t] + tokens);
    ConfigOfMembers(tokens);
  }

  /** `parseConfig`: both flags off, then each space-separated token switched on in turn. */
  method ParseConfig(msgSettingStr: string) returns (config: MessageChannelConfig)
    ensures config == ConfigOf(Split(msgSettingStr, ' '))
    ensures config.test <==> "test_source" in Split(msgSettingStr, ' ')
    ensures config.discord <==> "discord" in Split(msgSettingStr, ' ')
  {
    config := MessageChannelConfig(false, false);
    var enabledSources := Split(msgSettingStr, ' ');
    for i := 0 to |enabledSources|
      invariant config == ConfigOf(enabledSources[..i])
    {
      var enabledSource := enabledSources[i];
      assert enabledSources[..i + 1][..i] == enabledSources[..i];
      if enabledSource == "test_source" {
        config := config.(test := true);
      } else if enabledSource == "discord" {
        config := config.(discord := true);
      }
    }
    assert enabledSources[..|enabledSources|] == enabledSources;
    ConfigOfMembers(enabledSources);
  }
}
