// aya-frontend-v2/src/app/components/message/message.component.ts: how one
// displayed entry looks. The input `displayMsg` may be `undefined` (`None`);
// the optional chaining then makes every test false.

module MessageView {
  import opened Common
  import opened FrontendMessage

  /** `getIcon`: a gear for a bot (an admin bot included), a shield for an admin that is
      not a bot, no icon otherwise. */
  function GetIcon(displayMsg: Option<DisplayMessage>): (icon: string)
    ensures displayMsg.None? ==> icon == ""
    ensures displayMsg.Some? ==>
              (icon == "bi bi-gear" <==> displayMsg.value.message.author.isBot)
    ensures displayMsg.Some? ==>
              (icon == "bi bi-shield-fill-check" <==> !displayMsg.value.message.author.isBot && displayMsg.value.message.author.isAdmin)
    ensures icon == "" <==> displayMsg.None? || (!displayMsg.value.message.author.isBot && !displayMsg.value.message.author.isAdmin)
  {
    if displayMsg.Some? && (displayMsg.value.message.author.isBot || displayMsg.value.message.author.isAdmin) then
      if displayMsg.value.message.author.isBot then "bi bi-gear" else "bi bi-shield-fill-check"
    else ""
  }

  /** The platforms that have a logo of their own, and the logos. */
  const Logos: map<string, string> := map["discord" := "/discord.svg", "youtube" := "/youtube.svg", "twitch" := "/twitch.svg"]

  const DefaultLogo: string := "/analog.svg"

  /** `getSource`: the platform's logo, the analog logo for "test_source", any other
      source and no message. */
  function GetSource(displayMsg: Option<DisplayMessage>): (logo: string)
    ensures displayMsg.Some? && displayMsg.value.message.source in Logos ==> logo == Logos[displayMsg.value.message.source]
    ensures displayMsg.None? || displayMsg.value.message.source !in Logos ==> logo == DefaultLogo
  {
    if displayMsg.None? then DefaultLogo
    else
      match displayMsg.value.message.source
      case "discord" => "/discord.svg"
      case "youtube" => "/youtube.svg"
      case "twitch" => "/twitch.svg"
      case _ => DefaultLogo
  }

  /** Every source gets a distinct logo from every other source with a logo of its own:
      the logo tells the platform. */
  lemma LogoTellsPlatform(a: DisplayMessage, b: DisplayMessage)
    requires a.message.source in Logos
    requires GetSource(Some(a)) == GetSource(Some(b))
    ensures b.message.source == a.message.source
  {
  }

  /** The animation states of the `push` trigger. */
  const StateNames: set<string> := {"init", "deleted", "removed", "loaded"}

  /** `getState`: the flags by priority, `init` over `delete` over `remove`. */
  function GetState(displayMsg: Option<DisplayMessage>): (state: string)
    ensures state in StateNames
    ensures state == "init" <==> displayMsg.Some? && displayMsg.value.init
    ensures state == "deleted" <==> displayMsg.Some? && !displayMsg.value.init && displayMsg.value.delete
    ensures state == "removed" <==> displayMsg.Some? && !displayMsg.value.init && !displayMsg.value.delete && displayMsg.value.remove
  {
    if displayMsg.Some? && displayMsg.value.init then "init"
    else if displayMsg.Some? && displayMsg.value.delete then "deleted"
    else if displayMsg.Some? && displayMsg.value.remove then "removed"
    else "loaded"
  }

  /** An entry shows as loaded exactly when none of its flags is set, and no message at
      all shows as loaded. */
  lemma LoadedWhenNoFlag(displayMsg: Option<DisplayMessage>)
    ensures GetState(displayMsg) == "loaded" <==>
              displayMsg.None? || (!displayMsg.value.init && !displayMsg.value.delete && !displayMsg.value.remove)
    ensures displayMsg.None? ==> GetIcon(displayMsg) == "" && GetSource(displayMsg) == DefaultLogo
  {
  }

  /** An edit leaves the state alone: `edit` takes no part in it. */
  lemma EditDoesNotChangeState(e: DisplayMessage, msg: Message)
    ensures GetState(Some(e.(message := msg, edit := true))) == GetState(Some(e))
  {
  }
}
