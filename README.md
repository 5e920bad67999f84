# aya-streaming subscription core in Dafny

aya-streaming relays live chat from Discord, YouTube and Twitch to browser overlays. A browser session
names the rooms it wants to watch: Discord guild channels, YouTube channels and Twitch channels. The
backend keeps two kinds of bookkeeping:

- **Hubs** know which session watches which room.
- **Emitters** keep a platform listener open for each room while at least one session watches it.

Chat updates from the platforms are then fanned out to the sessions' websocket connections. The code
exists in three backend generations, each modelled as its own modules:

- `aya-backend/server-ws` is the newest;
- `aya-backend/server` is older;
- the `aya-backend` root is the oldest.

There are two Angular frontends as well.

The model covers the following parts of the system:

- The per-platform resource hubs (`TwitchHub`, `DiscordHub`, `YoutubeHub`). Each is a class over two
  map-of-set fields kept in lockstep. Its emitter calls are a ghost log.
  - The diff of old and new interests is proved to be a partition into kept, removed and added rooms.
  - A re-registration is proved to deregister each removed room once and register each added room once,
    removals first.
  - The two maps are proved to stay mutually consistent under every operation.
- The composed hubs (`ComposedHubWs`, `ComposedHub`): dispatch on the resource type, the partition
  of a session's resources by platform, and `registeredSessions`.
- Emitter reference counting (`TwitchEmitter`, `YoutubeEmitter`, `DiscordEmitter`) and the Discord
  channel registers (`DiscordRegisterWs`, `DiscordRegister`). `Agreement` proves that the rooms an
  emitter listens to follow the hub's rooms across a re-registration.
- The YouTube polling machinery: the kill-signal registers with their retry supervisors and page-token
  chaining (`YoutubeRegisterWs`, `YoutubeRegister`), and the throttled API callers (`ApiCaller`,
  `ApiCallerOld`). Both are discrete-time state machines: clock readings and API results are inputs.
  A send on an unbuffered channel that nobody will receive is an end state of its own (`Stuck`,
  `Hung`, `blocked`, `BlocksForever`), and a send on a closed channel is `Panics`.
- The websocket transports (`WebsocketWs`, `Websocket`, `WebsocketLegacy`):
  - connection maps with increasing ids;
  - fan-out of messages to sessions;
  - the ASCII case-folding origin check.
- The emitter configuration parsers and the dispatch step of the main loops (`MainWs`, `MainServer`,
  `LegacyComposedEmitter`).
- The `Source`/`Update` string and JSON codec (`ChatMessage`).
- The session REST API's filter extraction, owner-check middleware and field selection (`SessionApi`).
- The Discord and Twitch message parsers (`DiscordParser`, `DiscordParserOld`, `TwitchParser`).
- The frontend's chat display list (`ChatStream`), message appearance (`MessageView`) and session form
  (`SessionDialog`).

Shared helpers live in `Common`: `Option`, splitting on a separator, and enumerations of a set by a
sequence. The map-of-set operations shared by hubs and emitters live in `SessionIndex`.

Go map iteration has no fixed order. It is modelled by choosing any remaining key, so every proved
property holds for every iteration order. Regular expressions, time parsing and formatting, JSON
decoding and the platform SDK lookups are function-typed parameters.

## Model

| member | source | states |
|---|---|---|
| Common.Split | aya-backend/server-ws/main.go:66 | `strings.Split` with a one-character separator: at least one piece, none holding the separator |
| Common.JoinSplit | aya-backend/server-ws/main.go:66 | the pieces joined by the separator give the string back: nothing is lost by the split |
| Common.SplitPair | aya-backend/server/hubs/discord.go:63 | "a/b" with separator-free halves splits into exactly [a, b] |
| Common.EnumerationLength | aya-backend/server-ws/hubs/twitch.go:37-42 | a list holding each element of a set once has the set's size (the slice built by ranging over a map is filled exactly) |
| ChatMessage.SourceString | aya-backend/server/chat_service/chat_message.go:18-44 | a known source value gives its name; any other value gives "" (the map's zero value) |
| ChatMessage.ParseSource | aya-backend/server/chat_service/chat_message.go:26-40 | succeeds exactly for the four names, giving the value whose name it is; otherwise -1 and an error |
| ChatMessage.UpdateString | aya-backend/server/chat_service/chat_message.go:70-94 | a known update kind gives its name; any other value gives "" |
| ChatMessage.ParseUpdate | aya-backend/server/chat_service/chat_message.go:77-90 | succeeds exactly for "new", "delete", "edit", giving the value named; otherwise -1 and an error |
| ChatMessage.SourceRoundTrip | aya-backend/server/chat_service/chat_message.go:34-44 | parsing the name of a known source gives that source back |
| ChatMessage.SourceNameRoundTrip | aya-backend/server/chat_service/chat_message.go:34-44 | naming a parsed source name gives that name back |
| ChatMessage.UpdateRoundTrip | aya-backend/server/chat_service/chat_message.go:84-94 | parsing the name of a known update kind gives it back |
| ChatMessage.UnmarshalString | aya-backend/server/chat_service/chat_message.go:51-55 | decoding into a Go string succeeds for a JSON string (its text) or null (empty), fails otherwise |
| ChatMessage.UnmarshalSource | aya-backend/server/chat_service/chat_message.go:50-60 | a JSON error leaves the receiver unchanged and fails; otherwise the result is ParseSource of the decoded text (-1 on an unknown name) |
| ChatMessage.UnmarshalUpdate | aya-backend/server/chat_service/chat_message.go:102-112 | as UnmarshalSource, with ParseUpdate |
| ChatMessage.SourceJsonRoundTrip | aya-backend/server/chat_service/chat_message.go:46-60 | marshalling a known source and unmarshalling it restores the source, whatever the receiver held |
| ChatMessage.UnknownSourceJson | aya-backend/server/chat_service/chat_message.go:42-60 | an unknown source value marshals to "" and unmarshalling that fails, storing -1 |
| ChatMessage.UpdateJsonRoundTrip | aya-backend/server/chat_service/chat_message.go:96-112 | marshalling a known update kind and unmarshalling it restores it |
| ChatMessage.Wire | aya-backend/server/chat_service/chat_message.go:144-149 | the JSON envelope keeps the time and message, and its update field decodes to the update kind (-1 for an unknown one) |
| ChatMessage.RoutingKeyNotSerialised | aya-backend/server/chat_service/chat_message.go:148 | the `json:"-"` routing key never changes what is written |
| SessionIndex.LinkFacts | aya-backend/server-ws/hubs/twitch.go:123-135 | inserting a pair adds the key and adds the value under that key only |
| SessionIndex.UnlinkFacts | aya-backend/server-ws/hubs/twitch.go:137-145 | deleting a pair keeps every key and removes the value under that key only |
| SessionIndex.UnlinkDropFacts | aya-backend/server/chat_service/twitch/emitter.go:59-76 | an emitter's Deregister removes the subscriber, drops the key exactly when its set empties, and keeps every map free of empty entries |
| SessionIndex.LinkKeepsConsistent | aya-backend/server-ws/hubs/twitch.go:123-135 | `registerSession` keeps room -> sessions and session -> rooms describing one relation |
| SessionIndex.UnlinkKeepsConsistent | aya-backend/server-ws/hubs/twitch.go:137-145 | `deregisterSession` keeps both directions describing one relation |
| SessionIndex.MoveKeepsConsistent | aya-backend/server-ws/hubs/twitch.go:93-121 | a session leaving some rooms and joining others keeps both directions consistent |
| SessionIndex.DropKeepsConsistent | aya-backend/server-ws/hubs/twitch.go:47-58 | removing a session from all its rooms and deleting its entry keeps both directions consistent |
| SessionIndex.ResubscribeCompose | aya-backend/server-ws/hubs/twitch.go:109-120 | the removal loop followed by the addition loop is one change of the room -> sessions map |
| SessionIndex.KeySetMembers | aya-backend/server/chat_service/twitch/emitter.go:41-76 | a key is among the keys of a descriptor list exactly when some listed descriptor is filed under it |
| SessionIndex.ApplyAppend | aya-backend/server/chat_service/twitch/emitter.go:41-76 | running two call logs in turn equals running their concatenation |
| SessionIndex.DeregisterAgrees | aya-backend/server-ws/hubs/twitch.go:109-114 | the hub's Deregister calls, played on the emitter's map, give the hub's room -> sessions map after the removals, empty entries dropped |
| SessionIndex.RegisterAgrees | aya-backend/server-ws/hubs/twitch.go:115-120 | the hub's Register calls, played on the emitter's map, give the hub's map after the additions, empty entries dropped |
| SessionIndex.EmitterFollowsHub | aya-backend/server-ws/hubs/twitch.go:105-120 | removal calls then addition calls keep the emitter's subscriber map equal to the hub's live room -> sessions map |
| TwitchHub.ChannelNamesMembers | aya-backend/server-ws/hubs/twitch.go:101-104 | a channel name is collected exactly when a descriptor for it is listed |
| TwitchHub.CollectChannelNames | aya-backend/server-ws/hubs/twitch.go:101-104 | the first loop of `RegisterSessionResources` builds the set of the listed channel names |
| TwitchHub.ListsRoomsCount | aya-backend/server-ws/hubs/twitch.go:65-91 | a diff list naming each of a set's channel names once has one entry per name |
| TwitchHub.DiffTwitch | aya-backend/server-ws/hubs/twitch.go:65-91 | the similar, remove and add lists name each channel of old∩new, old−new and new−old exactly once |
| TwitchHub.RepeatIsNoop | aya-backend/server-ws/hubs/twitch.go:93-121 | registering a session for the channel names it already has makes no emitter call and changes neither map |
| TwitchHub.TwitchResourceHub.constructor | aya-backend/server-ws/hubs/twitch.go:18-24 | both maps start empty, with no emitter call made |
| TwitchHub.TwitchResourceHub.GetSessionId | aya-backend/server-ws/hubs/twitch.go:26-45 | lists every session watching the channel, each once, and nothing for a descriptor of another kind or an unwatched channel |
| TwitchHub.TwitchResourceHub.RemoveSession | aya-backend/server-ws/hubs/twitch.go:47-58 | as written: the session leaves every channel and loses its entry, both directions stay consistent, and no emitter call is made |
| TwitchHub.TwitchResourceHub.RemoveSessionDeregistering | aya-backend/server-ws/hubs/twitch.go:47-58 | corrected: the same map changes, plus one emitter Deregister per channel the session had |
| TwitchHub.TwitchResourceHub.LeaveAll | aya-backend/server-ws/hubs/twitch.go:47-58 | the loop of the corrected removal: one Deregister per channel in the set, each removed from the room map |
| TwitchHub.TwitchResourceHub.AddSession | aya-backend/server-ws/hubs/twitch.go:60-63 | changes nothing |
| TwitchHub.TwitchResourceHub.RegisterSessionResources | aya-backend/server-ws/hubs/twitch.go:93-121 | the session's channel set becomes exactly the listed names, both directions stay consistent, and the emitter gets one Deregister per dropped and one Register per new channel, in that order |
| TwitchHub.TwitchResourceHub.DeregisterEach | aya-backend/server-ws/hubs/twitch.go:109-114 | the removal loop: Deregister on the emitter then `deregisterSession`, for each listed channel |
| TwitchHub.TwitchResourceHub.RegisterEach | aya-backend/server-ws/hubs/twitch.go:115-120 | the addition loop: Register on the emitter then `registerSession`, for each listed channel |
| TwitchHub.TwitchResourceHub.RegisterSession | aya-backend/server-ws/hubs/twitch.go:123-135 | the pair is inserted in both directions, inner maps created as needed |
| TwitchHub.TwitchResourceHub.DeregisterSession | aya-backend/server-ws/hubs/twitch.go:137-145 | the pair is deleted in both directions; keys stay even when their set empties |
| YoutubeHub.ChannelIdsMembers | aya-backend/server/hubs/youtube.go:100-103 | a channel id name is collected exactly when a descriptor for it is listed |
| YoutubeHub.CollectChannelIds | aya-backend/server/hubs/youtube.go:100-103 | the first loop of `RegisterSessionResources` builds the set of the listed channel id names |
| YoutubeHub.ListsRoomsCount | aya-backend/server/hubs/youtube.go:64-90 | a diff list naming each of a set's channel id names once has one entry per name |
| YoutubeHub.DiffYoutube | aya-backend/server/hubs/youtube.go:64-90 | the similar, remove and add lists name each channel id of old∩new, old−new and new−old exactly once |
| YoutubeHub.RepeatIsNoop | aya-backend/server/hubs/youtube.go:92-120 | registering a session for the channel id names it already has makes no emitter call and changes neither map |
| YoutubeHub.YoutubeResourceHub.constructor | aya-backend/server/hubs/youtube.go:18-24 | both maps start empty, with no emitter call made |
| YoutubeHub.YoutubeResourceHub.GetSessionId | aya-backend/server/hubs/youtube.go:26-44 | lists every session watching the channel id, each once, and nothing for a descriptor of another kind or an unwatched channel id |
| YoutubeHub.YoutubeResourceHub.RemoveSession | aya-backend/server/hubs/youtube.go:46-57 | as written: the session leaves every channel id and loses its entry, both directions stay consistent, and no emitter call is made |
| YoutubeHub.YoutubeResourceHub.RemoveSessionDeregistering | aya-backend/server/hubs/youtube.go:46-57 | corrected: the same map changes, plus one emitter Deregister per channel id the session had |
| YoutubeHub.YoutubeResourceHub.LeaveAll | aya-backend/server/hubs/youtube.go:46-57 | the loop of the corrected removal: one Deregister per channel id in the set, each removed from the room map |
| YoutubeHub.YoutubeResourceHub.AddSession | aya-backend/server/hubs/youtube.go:59-62 | changes nothing |
| YoutubeHub.YoutubeResourceHub.RegisterSessionResources | aya-backend/server/hubs/youtube.go:92-120 | the session's channel id set becomes exactly the listed names, both directions stay consistent, and the emitter gets one Deregister per dropped and one Register per new channel id, in that order |
| YoutubeHub.YoutubeResourceHub.DeregisterEach | aya-backend/server/hubs/youtube.go:108-113 | the removal loop: Deregister on the emitter then `deregisterSession`, for each listed channel id |
| YoutubeHub.YoutubeResourceHub.RegisterEach | aya-backend/server/hubs/youtube.go:114-119 | the addition loop: Register on the emitter then `registerSession`, for each listed channel id |
| YoutubeHub.YoutubeResourceHub.RegisterSession | aya-backend/server/hubs/youtube.go:122-134 | the pair is inserted in both directions, inner maps created as needed |
| YoutubeHub.YoutubeResourceHub.DeregisterSession | aya-backend/server/hubs/youtube.go:136-144 | the pair is deleted in both directions; keys stay even when their set empties |
| TwitchParser.ParseMessage | aya-backend/server-ws/chat_service/twitch/parser.go:11-32 | a New update from Twitch with one message part, no attachments and a Twitch routing key |
| TwitchParser.ParseRoundTrip | aya-backend/server/chat_service/twitch/parser.go:12-33 | time, id, user name, text and channel can all be read back from the envelope: the parse loses nothing it reads |
| TwitchParser.OriginIsParse | aya-backend/server-ws/chat_service/twitch/parser.go:11-32 | every envelope of the parser's shape is the parse of the message read back from it |
| TwitchParser.ChannelNotOnWire | aya-backend/server-ws/chat_service/twitch/parser.go:28-30 | the channel is the routing key and changes nothing that is serialised |
| TwitchEmitter.ChannelKey | aya-backend/server/chat_service/twitch/emitter.go:42-45 | only Twitch descriptors are filed, under their channel name |
| TwitchEmitter.TwitchEmitter.NewEmitter | aya-backend/server/chat_service/twitch/emitter.go:115-120 | as written: no channels, no updates, the anonymous client, and the subscriber map left nil |
| TwitchEmitter.TwitchEmitter.NewEmitterInitialised | aya-backend/server/chat_service/twitch/emitter.go:115-120 | corrected: the same, with the subscriber map made empty |
| TwitchEmitter.TwitchEmitter.Register | aya-backend/server/chat_service/twitch/emitter.go:41-57 | ignores other descriptor kinds; while the map is nil a Twitch descriptor panics and nothing changes; otherwise adds the subscriber and joins the channel on the current client exactly when it had no subscriber; the channels joined on the current client stay among the map's keys, and are all of them until the client is replaced |
| TwitchEmitter.TwitchEmitter.Deregister | aya-backend/server/chat_service/twitch/emitter.go:59-76 | ignores other kinds and unknown channels; removes the subscriber, and deletes and departs the channel exactly when none is left |
| TwitchEmitter.TwitchEmitter.OnPrivateMessage | aya-backend/server/chat_service/twitch/emitter.go:94-98 | every private message is parsed and sent on the update channel, whatever channel it came from |
| TwitchEmitter.TwitchEmitter.SetClient | aya-backend/server/chat_service/twitch/emitter.go:100-113 | disconnects the old client (one error sent on failure), installs and connects the new one, and returns the connect error; the subscriber map is kept but no channel is joined on the new client |
| TwitchEmitter.TwitchEmitter.CloseEmitter | aya-backend/server/chat_service/twitch/emitter.go:82-88 | disconnects the current client and returns its error; nothing else changes |
| YoutubeEmitter.ChannelKey | aya-backend/server-ws/chat_service/youtube/emitter.go:39-42 | only YouTube descriptors are filed, under their channel id |
| YoutubeEmitter.YoutubeEmitter.constructor | aya-backend/server-ws/chat_service/youtube/emitter.go:148-153 | an empty subscriber map and a fresh register polling nothing |
| YoutubeEmitter.YoutubeEmitter.Register | aya-backend/server-ws/chat_service/youtube/emitter.go:38-53 | ignores other kinds; adds the subscriber, and has the register start polling the channel exactly when it had no subscriber |
| YoutubeEmitter.YoutubeEmitter.Deregister | aya-backend/server-ws/chat_service/youtube/emitter.go:55-74 | ignores other kinds and unknown channels; removes the subscriber, and deletes the channel and stops its polling exactly when none is left |
| YoutubeEmitter.YoutubeEmitter.CloseEmitter | aya-backend/server-ws/chat_service/youtube/emitter.go:80-85 | stops the register (every channel and the API caller) and closes the emitter; the subscriber map is kept |
| DiscordEmitter.Envelope | aya-backend/server/chat_service/discord/emitter.go:89-147 | New, Delete or Edit by event kind, from Discord, with the event's id and time and its guild and channel as routing key; a delete carries no author, parts or attachments |
| DiscordEmitter.ChannelKey | aya-backend/server/chat_service/discord/emitter.go:22-30 | only Discord descriptors are filed, under "guild/channel" |
| DiscordEmitter.DiscordEmitter.constructor | aya-backend/server/chat_service/discord/emitter.go:78-83 | an empty subscriber map, an empty register and nothing sent |
| DiscordEmitter.DiscordEmitter.Register | aya-backend/server/chat_service/discord/emitter.go:21-38 | ignores other kinds; adds the subscriber, and registers the pair exactly when its key had no subscriber; the register holds exactly the subscribed keys |
| DiscordEmitter.DiscordEmitter.Deregister | aya-backend/server/chat_service/discord/emitter.go:40-59 | ignores other kinds and unknown keys; removes the subscriber, and deletes the key and deregisters the pair exactly when none is left |
| DiscordEmitter.DiscordEmitter.OnEvent | aya-backend/server/chat_service/discord/emitter.go:89-147 | an event is sent on, as its envelope, exactly when the register has its guild and channel |
| DiscordRegister.DiscordRegister.constructor | aya-backend/server/service/discord/register.go:13-17 | nothing registered |
| DiscordRegister.DiscordRegister.Check | aya-backend/server/service/discord/register.go:38-44 | true exactly when the pair's "guild/channel" key is stored |
| DiscordRegister.DiscordRegister.RegisterChannel | aya-backend/server/service/discord/register.go:19-29 | afterwards the pair checks true and no other key's answer changes; every stored value stays true |
| DiscordRegister.DiscordRegister.DeregisterChannel | aya-backend/server/service/discord/register.go:31-36 | afterwards the pair checks false and no other key's answer changes |
| DiscordRegister.SharedKey | aya-backend/server/service/discord/register.go:22-41 | the pairs ("a/b", "c") and ("a", "b/c") share one key, so one entry answers for both |
| DiscordRegisterWs.DiscordRegister.constructor | aya-backend/server-ws/chat_service/discord/register.go:13-17 | nothing registered |
| DiscordRegisterWs.DiscordRegister.Check | aya-backend/server-ws/chat_service/discord/register.go:37-43 | true exactly when the pair's key is registered |
| DiscordRegisterWs.DiscordRegister.Register | aya-backend/server-ws/chat_service/discord/register.go:19-28 | the pair's key is added; the pair checks true and every other key's answer is unchanged |
| DiscordRegisterWs.DiscordRegister.Deregister | aya-backend/server-ws/chat_service/discord/register.go:30-35 | the pair's key is removed; the pair checks false and every other key's answer is unchanged |
| DiscordRegisterWs.KeysCollide | aya-backend/server-ws/chat_service/discord/register.go:22-40 | pairs whose ids contain '/' can collide on one key |
| DiscordHub.GuildChannel | aya-backend/server/hubs/discord.go:62-72 | the two halves of a key with exactly one '/', neither holding a '/'; two empty ids for any other key |
| DiscordHub.KeyRoundTrip | aya-backend/server/hubs/discord.go:62-72 | ids without '/' come back from their key unchanged |
| DiscordHub.GuildChannelInverse | aya-backend/server/hubs/discord.go:62-72 | a key that decodes to its own pair is rebuilt exactly from the decoded ids |
| DiscordHub.SlashedIdDoesNotRoundTrip | aya-backend/server/hubs/discord.go:62-72 | the pair ("a/b", "c") is stored as "a/b/c", which decodes to two empty ids |
| DiscordHub.DescriptorOf | aya-backend/server/hubs/discord.go:83-87 | the descriptor the diff builds from a stored key has no '/' in either id |
| DiscordHub.DescriptorKey | aya-backend/server/hubs/discord.go:83-87 | a decoded descriptor re-encodes to a well-formed key, and to the stored key itself when that was well formed |
| DiscordHub.CollectKeys | aya-backend/server/hubs/discord.go:120-124 | the first loop of `RegisterSessionResources` builds the set of the listed pairs' keys |
| DiscordHub.DecodedKeys | aya-backend/server/hubs/discord.go:74-106 | a decoded listing re-encodes only to well-formed keys, and to exactly the listed keys when those were well formed |
| DiscordHub.DiffDiscord | aya-backend/server/hubs/discord.go:74-106 | the similar, remove and add lists decode each key of old∩new, old−new and new−old exactly once |
| DiscordHub.PlainIdsRegisterExactly | aya-backend/server/hubs/discord.go:113-141 | with '/'-free ids, the rooms kept plus the rooms added are exactly the listed pairs' keys |
| DiscordHub.PlainKeysWellFormed | aya-backend/server/hubs/discord.go:122 | the keys of '/'-free descriptors decode back to their pairs |
| DiscordHub.RegisterOutcome | aya-backend/server/hubs/discord.go:125-140 | the removal loop then the addition loop keep both directions consistent and every recorded key well formed |
| DiscordHub.DiscordResourceHub.constructor | aya-backend/server/hubs/discord.go:19-25 | both maps start empty, with no emitter call made |
| DiscordHub.DiscordResourceHub.GetSessionId | aya-backend/server/hubs/discord.go:27-46 | as written: a slice of the room's size whose slot 0 holds some watcher and every other slot "", so with two or more watchers it is not a listing of them; nothing for a non-Discord value |
| DiscordHub.DiscordResourceHub.GetSessionIdCorrected | aya-backend/server/hubs/discord.go:27-46 | corrected: every session watching the room, each once; nothing for a non-Discord value or an unwatched room |
| DiscordHub.DiscordResourceHub.RemoveSession | aya-backend/server/hubs/discord.go:48-60 | as written: the session leaves every room and loses its entry, both directions stay consistent, and no emitter call is made |
| DiscordHub.DiscordResourceHub.RemoveSessionDeregistering | aya-backend/server/hubs/discord.go:48-60 | corrected: the same map changes, plus one emitter Deregister per room the session had, decoded from its key |
| DiscordHub.DiscordResourceHub.LeaveAll | aya-backend/server/hubs/discord.go:55-57 | the loop of the corrected removal: one Deregister per room in the set, each removed from the room map |
| DiscordHub.DiscordResourceHub.AddSession | aya-backend/server/hubs/discord.go:108-111 | changes nothing |
| DiscordHub.DiscordResourceHub.RegisterSessionResources | aya-backend/server/hubs/discord.go:113-141 | dropped keys are decoded and deregistered, new ones decoded and registered, in that order; with '/'-free ids the session's room set becomes exactly the listed keys; both directions stay consistent |
| DiscordHub.DiscordResourceHub.DeregisterEach | aya-backend/server/hubs/discord.go:129-134 | the removal loop: Deregister on the emitter then `deregisterSession`, for each listed pair |
| DiscordHub.DiscordResourceHub.RegisterEach | aya-backend/server/hubs/discord.go:135-140 | the addition loop: Register on the emitter then `registerSession`, for each listed pair |
| DiscordHub.DiscordResourceHub.RegisterSession | aya-backend/server/hubs/discord.go:143-157 | the pair is inserted under its key in both directions |
| DiscordHub.DiscordResourceHub.DeregisterSession | aya-backend/server/hubs/discord.go:159-170 | the pair is deleted under its key in both directions; keys stay |
| Agreement.TwitchKeys | aya-backend/server-ws/hubs/twitch.go:101-104 | a listing of Twitch rooms is filed by the Twitch emitter under exactly those rooms |
| Agreement.YoutubeKeys | aya-backend/server/hubs/youtube.go:100-103 | a listing of YouTube rooms is filed by the YouTube emitter under exactly those rooms |
| Agreement.DiscordKeysOf | aya-backend/server/hubs/discord.go:121-124 | the Discord emitter files descriptors under the same "guild/channel" keys the hub stores |
| Agreement.DiscordKeys | aya-backend/server/hubs/discord.go:83-87 | descriptors the hub rebuilds from well-formed stored keys are filed by the emitter under those keys |
| Agreement.TwitchEmitterFollowsHub | aya-backend/server-ws/hubs/twitch.go:109-120 | the Deregister and Register calls of a registration leave the emitter's subscriber map equal to the hub's new room map, empty rooms dropped |
| Agreement.YoutubeEmitterFollowsHub | aya-backend/server/hubs/youtube.go:108-119 | the same agreement between the YouTube hub and the YouTube emitter |
| Agreement.DiscordEmitterFollowsHub | aya-backend/server/hubs/discord.go:129-140 | the same agreement for Discord, with removed rooms rebuilt from well-formed keys |
| Agreement.RemoveSessionLeavesEmitterSubscribed | aya-backend/server-ws/hubs/twitch.go:47-58 | after the as-written removal the hub has no room for "s" while the emitter still counts "s" on "c" |
| ComposedHubWs.Select | aya-backend/server-ws/hubs/composed_hub.go:108-127 | the descriptors picked for one platform all have that platform's kind, and are no more than the resources listed |
| ComposedHubWs.SelectMembers | aya-backend/server-ws/hubs/composed_hub.go:108-127 | a descriptor is picked exactly when the list holds a resource of that type carrying a descriptor of the right kind |
| ComposedHubWs.SelectAppend | aya-backend/server-ws/hubs/composed_hub.go:108-127 | picking keeps list order: picking from a concatenation concatenates the picks |
| ComposedHubWs.Partition | aya-backend/server-ws/hubs/composed_hub.go:105-127 | the split loop yields the Discord, YouTube and Twitch picks of the list |
| ComposedHubWs.MessageHub.constructor | aya-backend/server-ws/hubs/composed_hub.go:33-41 | three fresh empty platform hubs and no registered session |
| ComposedHubWs.MessageHub.GetSessionId | aya-backend/server-ws/hubs/composed_hub.go:64-94 | as written: for a Discord resource the Discord hub's slot-0 answer (one watcher in slot 0, the other slots empty); for YouTube and Twitch each watcher once; nothing for a non-Resource value, an unknown type or a missing hub |
| ComposedHubWs.MessageHub.GetSessionIdCorrected | aya-backend/server-ws/hubs/composed_hub.go:64-94 | corrected: each session watching the resource on its platform's hub, once, Discord included; nothing for a non-Resource value, an unknown type, a missing hub or a descriptor of the wrong kind |
| ComposedHubWs.MessageHub.RemoveSession | aya-backend/server-ws/hubs/composed_hub.go:96-102 | as written: the session is forgotten and leaves the Discord and YouTube hubs, neither of which calls its emitter, while the Twitch hub keeps its rooms and their watcher entries |
| ComposedHubWs.MessageHub.RemoveSessionCorrected | aya-backend/server-ws/hubs/composed_hub.go:96-102 | corrected: the session leaves all three platform hubs, in both directions, and each hub deregisters on its emitter exactly the rooms the session held |
| ComposedHubWs.MessageHub.RegisterSessionResources | aya-backend/server-ws/hubs/composed_hub.go:104-139 | every present hub's rooms for the session become exactly its pick of the list (for Discord, when the ids hold no '/'); the session is marked registered |
| ComposedHubWs.MessageHub.AddSession | aya-backend/server-ws/hubs/composed_hub.go:141-154 | the session is marked connected and not registered, overwriting any earlier mark; the hubs are unchanged |
| ComposedHub.Partition | aya-backend/server/hubs/composed_hub.go:96-113 | the split loop yields the Discord and YouTube picks of the list |
| ComposedHub.MessageHub.constructor | aya-backend/server/hubs/composed_hub.go:31-38 | two fresh empty platform hubs and no registered session |
| ComposedHub.MessageHub.GetSessionId | aya-backend/server/hubs/composed_hub.go:61-85 | as written: for a Discord resource the Discord hub's slot-0 answer (one watcher in slot 0, the other slots empty); for YouTube each watcher once; nothing for any other value or type |
| ComposedHub.MessageHub.GetSessionIdCorrected | aya-backend/server/hubs/composed_hub.go:61-85 | corrected: each session watching the resource on the Discord or YouTube hub, once; nothing for any other value or type |
| ComposedHub.MessageHub.RemoveSession | aya-backend/server/hubs/composed_hub.go:87-93 | as written: the session is forgotten and leaves both platform hubs, in both directions, and neither hub calls its emitter, so the rooms stay registered there |
| ComposedHub.MessageHub.RemoveSessionCorrected | aya-backend/server/hubs/composed_hub.go:87-93 | corrected: as RemoveSession, and each hub deregisters on its emitter exactly the rooms the session held |
| ComposedHub.MessageHub.RegisterSessionResources | aya-backend/server/hubs/composed_hub.go:95-121 | each present hub's rooms for the session become exactly its pick of the list; the session is marked registered |
| ComposedHub.MessageHub.AddSession | aya-backend/server/hubs/composed_hub.go:123-133 | the session is marked connected and not registered; the hubs are unchanged |
| ApiCaller.EffectsPerRequest | aya-backend/server/chat_service/youtube/api_caller.go:49-57 | each served request gets exactly one outcome on its own channels, then both its channels closed, in serving order |
| ApiCaller.PollingIntervalRespected | aya-backend/server/chat_service/youtube/api_caller.go:31-53 | after an answered call the next call is taken no earlier than its completion plus the polling interval it returned |
| ApiCaller.Worker | aya-backend/server/chat_service/youtube/api_caller.go:30-63 | the worker serves the offers in arrival order, never before `nextApiCall` nor while busy, takes the first offer at once, answers each on its own channels and closes the queue on a stop |
| ApiCaller.LiveChatApiCaller.constructor | aya-backend/server/chat_service/youtube/api_caller.go:22-28 | nothing queued, no stop sent, the service as given |
| ApiCaller.LiveChatApiCaller.SetYTService | aya-backend/server/chat_service/youtube/api_caller.go:68-70 | the service is set; queue and stop flag unchanged |
| ApiCaller.LiveChatApiCaller.Stop | aya-backend/server/chat_service/youtube/api_caller.go:72-74 | the first stop is taken by the worker and returns; a second one has no receiver and blocks for ever |
| ApiCaller.LiveChatApiCaller.Request | aya-backend/server/chat_service/youtube/api_caller.go:76-86 | before a stop the call is queued with two new channels, distinct from each other and from every earlier request's; after a stop the send on the closed queue panics and nothing is queued |
| ApiCallerOld.OutcomesOnly | aya-backend/server/service/youtube/api_caller.go:48-56 | one outcome per served request, in order, and nothing else |
| ApiCallerOld.Worker | aya-backend/server/service/youtube/api_caller.go:29-62 | as written: the same schedule as the newer worker while every caller reads its answer, the log holding only the outcomes and a stop closing the stop channel and the queue; the first request whose caller no longer reads leaves the worker blocked for ever, serving nothing after it and taking no stop |
| ApiCallerOld.WorkerCorrected | aya-backend/server/service/youtube/api_caller.go:29-62 | corrected, with the callers' answer channels given room for one value: every offer up to the first stop is served in order on the newer worker's schedule, and without a stop all of them are |
| ApiCallerOld.CallerChannelsStayOpen | aya-backend/server/service/youtube/api_caller.go:48-56 | the older worker never closes a request's own channels |
| ApiCallerOld.LiveChatApiCaller.constructor | aya-backend/server/service/youtube/api_caller.go:21-27 | nothing queued, no stop sent, the service as given |
| ApiCallerOld.LiveChatApiCaller.SetYTService | aya-backend/server/service/youtube/api_caller.go:67-69 | the service is set; queue and stop flag unchanged |
| ApiCallerOld.LiveChatApiCaller.Stop | aya-backend/server/service/youtube/api_caller.go:71-73 | the first stop is taken by the worker and returns; a second one sends on the stop channel the worker closed and panics |
| ApiCallerOld.LiveChatApiCaller.Request | aya-backend/server/service/youtube/api_caller.go:75-77 | before a stop the caller's request, channels included, is queued unchanged; after a stop the send on the closed queue panics and nothing is queued |
| YoutubeRegister.SetupChannel | aya-backend/server/service/youtube/register.go:62-151 | an unresolved live chat is reported as an error with no page request; otherwise each round requests with the previous page's token and then takes exactly one of stop, error or page; the updates are those of the pages read; a stop ends the attempt with its last request outstanding and that page unread, the first request included, and it is seen in its round whenever every earlier page arrived |
| YoutubeRegister.YoutubeRegister.constructor | aya-backend/server/service/youtube/register.go:18-29 | no channel yet and no signal made or closed; without a service the mutex is taken |
| YoutubeRegister.YoutubeRegister.Start | aya-backend/server/service/youtube/register.go:178-182 | the service is stored and handed to the API caller and the mutex released; releasing a mutex that was not held is fatal |
| YoutubeRegister.YoutubeRegister.RegisterChannel | aya-backend/server/service/youtube/register.go:43-56 | blocks while the mutex is held; a channel already present is left alone; otherwise one new kill signal, not closed, is stored for it and nothing else changes |
| YoutubeRegister.YoutubeRegister.RemoveChannel | aya-backend/server/service/youtube/register.go:31-41 | blocks while the mutex is held; an absent channel is left alone; the send panics, changing nothing, exactly when a listener has closed that channel's kill signal; otherwise one send on it and its entry alone removed |
| YoutubeRegister.YoutubeRegister.ListenerTookStop | aya-backend/server/service/youtube/register.go:119-123 | a listener takes a stop that was sent on its kill signal and closes that signal; the map keeps the entry |
| YoutubeRegister.YoutubeRegister.Stop | aya-backend/server/service/youtube/register.go:184-191 | blocks while the mutex is held; every entry kept; panics exactly when some stored kill signal is closed or the API caller was already stopped, and otherwise sends once on every stored signal and stops the API caller; a panic on a signal comes after the sends on the channels visited before it and leaves the caller as it was |
| YoutubeRegister.SendEach | aya-backend/server/service/youtube/register.go:187-189 | the loop of `Stop`: one send per channel of the map, each channel once, until one whose signal is closed; it panics exactly when some stored signal is closed |
| YoutubeRegister.StopThenRemovePanics | aya-backend/server/service/youtube/register.go:31-41 | after a register-wide stop whose send the listener of "a" took, closing its signal, removing "a" panics, and so does a second `Stop` |
| YoutubeRegister.StopSignalsEveryChannel | aya-backend/server/service/youtube/register.go:187-189 | every channel in the map has its kill signal sent on by `Stop` |
| YoutubeRegister.SendAllRestrict | aya-backend/server/service/youtube/register.go:187-189 | dropping an unlisted channel from the map does not change the sends |
| YoutubeRegister.SupervisorStep | aya-backend/server/service/youtube/register.go:155-174 | one select of the supervisor keeps the retry shape: errors follow attempts, each retry starts one minute after its error; a stop while listening ends the run, a stop from `removeChannel` while waiting stops the whole register, and a stop from `Stop` while waiting blocks for ever |
| YoutubeRegister.Supervise | aya-backend/server/service/youtube/register.go:153-175 | over any sequence of events the actions have the retry shape; without errors there is a single attempt, the register is never stopped from here and the supervisor never blocks |
| YoutubeRegisterWs.LastOr | aya-backend/server-ws/chat_service/youtube/register.go:63-66 | what the overwriting loop leaves: the last id of a non-empty list, "" for an empty one |
| YoutubeRegisterWs.Resolve | aya-backend/server-ws/chat_service/youtube/register.go:35-74 | a failed call, an empty search or an empty live-chat id is an error; otherwise the last video item's live-chat id, never "" |
| YoutubeRegisterWs.GetLiveChatId | aya-backend/server-ws/chat_service/youtube/register.go:35-74 | the video lookup is made exactly when the search found a video, and for the first one; the outcome is `Resolve` of the two answers |
| YoutubeRegisterWs.ItemUpdate | aya-backend/server-ws/chat_service/youtube/register.go:109-123 | an update exactly for a non-nil item with a snippet: New, routed to the channel, the parsed message, stamped with the parsed publish time or else the current time |
| YoutubeRegisterWs.Updates | aya-backend/server-ws/chat_service/youtube/register.go:108-124 | no more updates than items |
| YoutubeRegisterWs.UpdatesPerItem | aya-backend/server-ws/chat_service/youtube/register.go:108-124 | one update per item with a snippet, in item order, each that item's update |
| YoutubeRegisterWs.UpdatesSnoc | aya-backend/server-ws/chat_service/youtube/register.go:108-124 | one more item appends its update, if any |
| YoutubeRegisterWs.SendItems | aya-backend/server-ws/chat_service/youtube/register.go:108-124 | the item loop sends exactly the page's updates, in order |
| YoutubeRegisterWs.ListenForChatMessages | aya-backend/server-ws/chat_service/youtube/register.go:76-132 | the first request has no page token and each later one the previous page's next-page token; the updates sent are those of the pages received; the stream closes exactly on the stop or after a failed page |
| YoutubeRegisterWs.YoutubeRegister.constructor | aya-backend/server-ws/chat_service/youtube/register.go:25-33 | no channel polled, the service as given, nothing signalled |
| YoutubeRegisterWs.YoutubeRegister.SetYTService | aya-backend/server-ws/chat_service/youtube/register.go:214-217 | the service is set for the register and its API caller; the channels are unchanged |
| YoutubeRegisterWs.YoutubeRegister.RegisterChannel | aya-backend/server-ws/chat_service/youtube/register.go:135-212 | nothing without a service or for a channel already polled; otherwise one new kill signal stored for the channel and nothing else changed |
| YoutubeRegisterWs.YoutubeRegister.DeregisterChannel | aya-backend/server-ws/chat_service/youtube/register.go:219-231 | nothing for a channel not polled; otherwise its signal is sent on then closed, and its entry alone removed |
| YoutubeRegisterWs.YoutubeRegister.Stop | aya-backend/server-ws/chat_service/youtube/register.go:233-244 | every polled channel's signal sent on and closed, each once; the map emptied and the API caller stopped |
| YoutubeRegisterWs.KillEach | aya-backend/server-ws/chat_service/youtube/register.go:236-241 | the loop of `Stop`: every channel of the map, each once, its signal sent then closed |
| YoutubeRegisterWs.StopStep | aya-backend/server-ws/chat_service/youtube/register.go:236-241 | one more iteration of the loop adds a send and a close on that channel's own signal |
| YoutubeRegisterWs.SupervisorStep | aya-backend/server-ws/chat_service/youtube/register.go:170-210 | one select keeps the retry shape: errors follow attempts and each retry starts 30 seconds after its setup error; a stop is handed to a listening attempt and ends the run, waits for a resolving attempt to start listening, and blocks for ever during the wait or when that attempt's setup fails; without a setup error nothing restarts |
| YoutubeRegisterWs.Supervise | aya-backend/server-ws/chat_service/youtube/register.go:170-210 | over any sequence of events the actions have the retry shape; the run returns only after a listener started; without setup errors there is a single attempt, even when the listener gives up, and the supervisor never blocks |
| Websocket.Lower | aya-backend/server/socket/websocket.go:137-142 | A-Z are shifted to a-z; every other rune is unchanged |
| Websocket.FoldEqPointwise | aya-backend/server/socket/websocket.go:128-148 | the loop's verdict holds exactly when both strings have the same length and agree rune by rune up to ASCII case |
| Websocket.FoldEqProperties | aya-backend/server/socket/websocket.go:128-148 | fold-equality is reflexive and symmetric, and the empty string equals only itself |
| Websocket.EqualASCIIFold | aya-backend/server/socket/websocket.go:128-148 | the loop returns exactly the fold-equality of its inputs |
| Websocket.CheckOrigin | aya-backend/server/socket/websocket.go:164-182 | no Origin header is accepted, an unparsable one refused, and otherwise accepted exactly when some acceptable origin is fold-equal to the host |
| Websocket.CaseInsensitiveOrigin | aya-backend/server/socket/websocket.go:164-182 | an acceptable origin differing from the host only in ASCII case admits the request |
| Websocket.AddWebsiteOrigin | aya-backend/server/socket/websocket.go:157-160 | the website origin is appended only when it is set |
| Websocket.RegistrationCalls | aya-backend/server/socket/websocket.go:44-50 | one hub addition per stored resource, in order, then one emitter registration of them all |
| Websocket.RegisterSessionForMessages | aya-backend/server/socket/websocket.go:44-50 | the loop makes exactly those calls |
| Websocket.WSServer.constructor | aya-backend/server/socket/websocket.go:184-190 | no session, no call, no delivery |
| Websocket.WSServer.Connect | aya-backend/server/socket/websocket.go:58-88 | an empty id is a bad request and a failed upgrade ends it, both changing nothing; otherwise the connection gets the session's next id and the session is registered again |
| Websocket.WSServer.OnClose | aya-backend/server/socket/websocket.go:96-108 | the close handler as registered: the connection's id is dropped, and when none is left the session is removed from the hub and its resources deregistered; nothing in the server invokes it |
| Websocket.WSServer.WriterExits | aya-backend/server/socket/websocket.go:90-125 | a failed write ends the connection's writer loop and closes it, but the connection stays listed under its session and no hub or emitter call is made |
| Websocket.WSServer.SendMessageToSession | aya-backend/server/socket/websocket.go:201-213 | the message goes once to each open connection of the session, and nowhere for an unknown one |
| Websocket.WSServer.SendMessageToSessions | aya-backend/server/socket/websocket.go:215-219 | each listed session in turn, in list order |
| WebsocketWs.AddConnection | aya-backend/server-ws/socket/websocket.go:64-75 | a new connection of a session: its entry is created if missing, the counter moves on by one and the new id joins the open ones; other sessions are unchanged |
| WebsocketWs.RemoveConnection | aya-backend/server-ws/socket/websocket.go:120-128 | only that id is dropped; the entry and its counter stay, other sessions are unchanged |
| WebsocketWs.NewIdIsFresh | aya-backend/server-ws/socket/websocket.go:64-75 | ids start at 1, a new id is above every open one and the counter moves on by one |
| WebsocketWs.ClosedIdNeverReissued | aya-backend/server-ws/socket/websocket.go:120-128 | closing keeps the numbering and the next id stays above the closed one, so it is never handed out again |
| WebsocketWs.DeliverAll | aya-backend/server-ws/socket/websocket.go:172-174 | one delivery per listed connection, in list order |
| WebsocketWs.FanoutAppend | aya-backend/server-ws/socket/websocket.go:177-181 | the fan-out over a concatenation of session lists is the concatenation of the fan-outs |
| WebsocketWs.RepeatedSessionDeliveredTwice | aya-backend/server-ws/socket/websocket.go:177-181 | a session listed twice receives the message twice on each of its connections |
| WebsocketWs.FanoutMembers | aya-backend/server-ws/socket/websocket.go:163-181 | a delivery happens exactly for a listed session and one of its open connections, with the message sent |
| WebsocketWs.DeliverEach | aya-backend/server-ws/socket/websocket.go:172-174 | the loop visits every open connection once and sends the message on each |
| WebsocketWs.FanoutEach | aya-backend/server-ws/socket/websocket.go:163-181 | each listed session in turn, in list order: one enumeration of each session's open connections, and exactly the fan-out over those enumerations is sent, nothing for an unknown session |
| WebsocketWs.WSServer.constructor | aya-backend/server-ws/socket/websocket.go:154-159 | no session, no hub call, no delivery |
| WebsocketWs.WSServer.Connect | aya-backend/server-ws/socket/websocket.go:47-78 | an empty id is a bad request and a failed upgrade ends it, both changing nothing; otherwise the connection gets the session's next id and the session is added to the hub |
| WebsocketWs.WSServer.Disconnect | aya-backend/server-ws/socket/websocket.go:117-129 | the connection's id is dropped, and the session is removed from the hub exactly when none of its connections is left |
| WebsocketWs.WSServer.SendMessageToSession | aya-backend/server-ws/socket/websocket.go:163-175 | the message goes once to each open connection of the session, and nowhere for an unknown one |
| WebsocketWs.WSServer.SendMessageToSessions | aya-backend/server-ws/socket/websocket.go:177-181 | each listed session in turn, in list order, a repeated session receiving it again |
| WebsocketLegacy.LegacyOriginCheck | aya-backend/socket/websocket.go:91-116 | the origin list holds only the website's origin when it is set, so a request with an Origin header passes only when that origin is set and fold-equal to its host |
| WebsocketLegacy.Attach | aya-backend/socket/websocket.go:39-43 | the id is mapped to the new channel, replacing any earlier one; other ids are unchanged |
| WebsocketLegacy.Detach | aya-backend/socket/websocket.go:45-48 | as written: the id is deleted whichever channel it holds; other ids are unchanged |
| WebsocketLegacy.DetachCorrected | aya-backend/socket/websocket.go:45-48 | corrected: the id is deleted only while it still holds the ending connection's channel |
| WebsocketLegacy.StaleCloseDropsCurrentChannel | aya-backend/socket/websocket.go:39-48 | two connections for one id, the first ends: as written the id loses the second connection's channel; the corrected detach keeps it |
| WebsocketLegacy.WSServer.constructor | aya-backend/socket/websocket.go:118-121 | no channel stored, no connection |
| WebsocketLegacy.WSServer.Connect | aya-backend/socket/websocket.go:29-43 | a failed upgrade changes nothing; otherwise a fresh channel is made and stored for the id, replacing any earlier one; no id is refused |
| WebsocketLegacy.WSServer.Disconnect | aya-backend/socket/websocket.go:45-48 | as written: the connection closes and its id is detached whatever the id holds now |
| WebsocketLegacy.WSServer.DisconnectCorrected | aya-backend/socket/websocket.go:45-48 | corrected: the connection closes and every id holding another channel keeps it |
| MainWs.ConfigOfMembers | aya-backend/server-ws/main.go:66-78 | each of the four flags is on exactly when its token is among the tokens |
| MainWs.SameTokensSameConfig | aya-backend/server-ws/main.go:66-78 | token order and repetitions do not matter |
| MainWs.UnknownTokenIgnored | aya-backend/server-ws/main.go:68-77 | an unknown token, the empty one and case variants included, changes nothing wherever it stands |
| MainWs.ParseEmitterConfig | aya-backend/server-ws/main.go:59-81 | a flag is on exactly when its token is one of the space-separated pieces of the setting |
| MainWs.EmptySettingStartsNothing | aya-backend/server-ws/main.go:102-103 | an unset SOURCES variable starts no platform |
| MainWs.Dispatch | aya-backend/server-ws/main.go:128-134 | as written: the update reaches exactly the open connections of the sessions the hub lists; for YouTube and Twitch those are the watchers, for Discord at most one watcher is reached and, with two or more watchers, some watcher receives nothing |
| MainWs.DispatchCorrected | aya-backend/server-ws/main.go:128-134 | corrected: through the corrected Discord lookup, the update reaches exactly the open connections of the sessions watching its source and key |
| MainServer.ConfigOfMembers | aya-backend/server/main.go:68-79 | each of the three flags is on exactly when its token is among the tokens |
| MainServer.SameTokensSameConfig | aya-backend/server/main.go:68-79 | token order and repetitions do not matter |
| MainServer.UnknownTokenIgnored | aya-backend/server/main.go:70-77 | an unknown token, "twitch" among them, changes nothing wherever it stands |
| MainServer.ParseEmitterConfig | aya-backend/server/main.go:61-81 | a flag is on exactly when its token is one of the space-separated pieces of the setting |
| MainServer.Dispatch | aya-backend/server/main.go:134-137 | as written: the hub is asked with the bare routing key, so a routing key that is not a Resource reaches no session and nothing is sent |
| MainServer.DispatchCorrected | aya-backend/server/main.go:134-137 | corrected: the hub is asked with source and routing key and answers through the corrected Discord lookup, and the update reaches exactly the open connections of the watching sessions |
| MainServer.BareKeyFindsNoWatcher | aya-backend/server/main.go:136 | a Discord update whose channel a session watches finds no watcher by its bare key, and that session by the wrapped one |
| LegacyComposedEmitter.ConfigOfMembers | aya-backend/composed_emitter.go:102-112 | each of the two flags is on exactly when its token is among the tokens |
| LegacyComposedEmitter.SameTokensSameConfig | aya-backend/composed_emitter.go:102-112 | token order and repetitions do not matter |
| LegacyComposedEmitter.UnknownTokenIgnored | aya-backend/composed_emitter.go:104-111 | an unknown token, "youtube" among them, changes nothing wherever it stands |
| LegacyComposedEmitter.ParseConfig | aya-backend/composed_emitter.go:96-114 | a flag is on exactly when its token is one of the space-separated pieces of the setting; each `break` leaves only the switch |
| SessionApi.QueryOf | aya-backend/server/api/session.go:22-48 | each field of the query struct is the filter's value when set and the zero value otherwise |
| SessionApi.ColumnsListSetColumns | aya-backend/server/api/session.go:22-48 | the column list names exactly the set columns, each once, in the order id, user_id, is_on, resources |
| SessionApi.ColumnsNameIdAndUser | aya-backend/server/api/session.go:79-109 | the column list holds "id" exactly when the filter sets an id and "user_id" exactly when it sets a user id, which are the two tests the middleware makes |
| SessionApi.ExtractSessionFilter | aya-backend/server/api/session.go:22-48 | the query struct and column list the field-by-field checks build are those two |
| SessionApi.OwnerMiddleware | aya-backend/server/api/session.go:50-151 | OPTIONS and only OPTIONS passes through; a missing filter or claim is a bad request, a filter without user_id forbidden, an unknown user a bad request, a claim without an email a panic; a request is forwarded exactly when the user exists, the email is theirs and any named session exists and is theirs, and then with that user and session |
| SessionApi.SessionChecks | aya-backend/server/api/session.go:109-140 | for a filter naming a session: a missing one is a bad request, another lookup error an internal error, someone else's forbidden |
| SessionApi.EmailMismatchForbidden | aya-backend/server/api/session.go:99-107 | a claim whose email is not the user's is forbidden, whatever the session |
| SessionApi.PutSession | aya-backend/server/api/session.go:261-271 | only is_on and resources can change, each to the filter's value when it sets one; the id and owner stay |
| SessionApi.NewSession | aya-backend/server/api/session.go:219-224 | a session exists exactly when the filter names a user and resources; it is off and holds those |
| DiscordParser.FirstNonEmpty | aya-backend/server/service/discord/parser.go:244-246 | the index of the first non-empty capture group, every earlier one empty; -1 exactly when all are empty |
| DiscordParser.AssembleParts | aya-backend/server/service/discord/parser.go:240-259 | the loop builds, round by round, the token of the previous gap then the piece's text when non-empty |
| DiscordParser.KeepAppend | aya-backend/server/service/discord/parser.go:240-259 | filtering the parts, either way, distributes over concatenation |
| DiscordParser.ColoredsOf | aya-backend/server/service/discord/parser.go:248-252 | one coloured part per match |
| DiscordParser.ColoredsSnoc | aya-backend/server/service/discord/parser.go:248-252 | one more match adds its coloured part at the end |
| DiscordParser.UsedMatches | aya-backend/server/service/discord/parser.go:242-243 | the loop uses no more matches than were found |
| DiscordParser.PieceKinds | aya-backend/server/service/discord/parser.go:242-258 | one round contributes its text piece as a plain part and its token as a coloured part |
| DiscordParser.AssembledPlains | aya-backend/server/service/discord/parser.go:240-259 | the plain parts are the non-empty text pieces, in order |
| DiscordParser.AssembledColoreds | aya-backend/server/service/discord/parser.go:240-259 | the coloured parts are one per used token, in order |
| DiscordParser.Hex | aya-backend/server/service/discord/parser.go:159 | `%x` writes at least one lower-case hexadecimal digit |
| DiscordParser.HexRoundTrip | aya-backend/server/service/discord/parser.go:159 | `%x` loses nothing: the digits read back as the number |
| DiscordParser.PadZeros | aya-backend/server/service/discord/parser.go:159 | zeros are put in front up to the width, the digits kept at the end |
| DiscordParser.ColorHex | aya-backend/server/service/discord/parser.go:159 | `#%06x` gives "#" and at least six characters |
| DiscordParser.HexLength | aya-backend/server/service/discord/parser.go:159 | a value below 16^k has at most k digits |
| DiscordParser.ColorHexRoundTrip | aya-backend/server/service/discord/parser.go:159 | a 24-bit colour reads back from its six digits |
| DiscordParser.LeadingZeros | aya-backend/server/service/discord/parser.go:159 | leading zeros do not change a hexadecimal value |
| DiscordParser.ZerosValue | aya-backend/server/service/discord/parser.go:159 | a run of zeros is a hexadecimal string worth 0 |
| DiscordParser.ParseInt64 | aya-backend/server/service/discord/parser.go:83 | `strconv.ParseInt(s, 10, 64)`: a result lies in the 64-bit range; a digit string parses exactly when its value fits, to that value; the empty string fails |
| DiscordParser.DecimalBound | aya-backend/server/service/discord/parser.go:83 | a digit string is worth less than ten to its length |
| DiscordParser.ShortTimestampParses | aya-backend/server/service/discord/parser.go:76-92 | a timestamp of up to eighteen digits always parses, to its value |
| DiscordParser.Pow10Monotone | aya-backend/server/service/discord/parser.go:83 | powers of ten grow with the exponent |
| DiscordParser.GetEmojiInfo | aya-backend/server/service/discord/parser.go:53-74 | no match gives the empty emoji; a static emoji links `<id>.png`, an animated one `<id>.gif?v=1`, with `:name:` as its text |
| DiscordParser.GetTimeStamp | aya-backend/server/service/discord/parser.go:76-92 | empty when the token does not match or its number does not parse; otherwise the date of that Unix time |
| DiscordParser.GetIdWithRegex | aya-backend/server/service/discord/parser.go:94-100 | the id group of a match; empty when there is none |
| DiscordParser.RoleIndex | aya-backend/server/service/discord/parser.go:175-177 | the first role with the id, every earlier one different; -1 exactly when none has it |
| DiscordParser.ColoredPart | aya-backend/server/service/discord/parser.go:102-213 | an emoji token becomes an emoji part; channels, @everyone, @here and timestamps white text; mentions and roles coloured text; @everyone and @here keep their text, a timestamp shows its date, an unknown alternative the empty part |
| DiscordParser.MentionShowsNickname | aya-backend/server/service/discord/parser.go:150-157 | a mention shows "@" and the member's nickname, or the user name when there is none |
| DiscordParser.ParseMessage | aya-backend/server/service/discord/parser.go:233-260 | the parts are those the loop assembles from the split pieces and the matches |
| DiscordParser.ParsedMessageParts | aya-backend/server/service/discord/parser.go:233-260 | the parsed message holds its non-empty text pieces as plain parts, in order, and one coloured part per used token, in order |
| DiscordParser.ParseAttachment | aya-backend/server/service/discord/parser.go:225-231 | one file name per attachment, in order |
| DiscordParserOld.GetEmojiInfoAsWritten | aya-backend/service/discord/parser.go:49-71 | as written: no match gives the empty emoji; a static emoji links `<id>.gif?v=1` and an animated one `<id>.png` |
| DiscordParserOld.EmojiExtensionsSwapped | aya-backend/service/discord/parser.go:49-71 | for every matched emoji the written image differs from the newer parser's while the text agrees |
| DiscordParserOld.SharedPart | aya-backend/service/discord/parser.go:88-166 | channel, user and role mentions become a coloured text part with no emoji |
| DiscordParserOld.SharedPartsAgree | aya-backend/service/discord/parser.go:88-166 | those parts carry the same text and colour as the newer parser's |
| DiscordParserOld.ColoredPartAsWritten | aya-backend/service/discord/parser.go:81-178 | as written: emojis with the swapped images, @everyone the empty part, @here white text, an unknown alternative the empty part |
| DiscordParserOld.ColoredPartCorrected | aya-backend/service/discord/parser.go:81-178 | corrected: the newer parser's emoji images, and @everyone shown like @here |
| DiscordParserOld.EveryoneLost | aya-backend/service/discord/parser.go:167 | "@everyone" parses to an empty part as written and to its own text corrected |
| DiscordParserOld.ParseMessageAsWritten | aya-backend/service/discord/parser.go:190-217 | as written: the parts the loop assembles from the split pieces and the as-written coloured parts |
| DiscordParserOld.ParseMessage | aya-backend/service/discord/parser.go:190-217 | corrected: the same loop over the corrected coloured parts |
| DiscordParserOld.ParsedMessageParts | aya-backend/service/discord/parser.go:190-217 | with the corrected parts the message keeps its non-empty pieces as plain parts and one coloured part per used token, in order, and @everyone and @here keep their text |
| ChatStream.FindIndex | aya-frontend-v2/src/app/components/chat-stream/chat-stream.component.ts:79-91 | the first entry matching the target, no earlier one matching; -1 exactly when none matches |
| ChatStream.Apply | aya-frontend-v2/src/app/components/chat-stream/chat-stream.component.ts:64-93 | the field writes on a found entry keep its key |
| ChatStream.UpdateFirst | aya-frontend-v2/src/app/components/chat-stream/chat-stream.component.ts:78-96 | same length and keys; only the first matching entry changes, and it gets the change |
| ChatStream.EditDeleteKeepEntries | aya-frontend-v2/src/app/components/chat-stream/chat-stream.component.ts:78-96 | an edit or delete never adds or drops entries, and one whose id is shown nowhere changes nothing |
| ChatStream.DeleteMarksOnly | aya-frontend-v2/src/app/components/chat-stream/chat-stream.component.ts:88-96 | a deleted message stays in the list with its message, only its `delete` flag set |
| ChatStream.PushAsWritten | aya-frontend-v2/src/app/components/chat-stream/chat-stream.component.ts:59-62 | as written: with a cap of at least 1 the entry is appended and nothing is ever dropped |
| ChatStream.PushCapped | aya-frontend-v2/src/app/components/chat-stream/chat-stream.component.ts:59-62 | corrected: the entry is appended and the oldest dropped only when the list grows past the cap, so a capped list stays capped; the entry is last |
| ChatStream.NeverTrimmed | aya-frontend-v2/src/app/components/chat-stream/chat-stream.component.ts:26-60 | with the cap of 100 a full list grows to 101 as written and stays at 100 corrected |
| ChatStream.ChatStreamComponent.constructor | aya-frontend-v2/src/app/components/chat-stream/chat-stream.component.ts:26-29 | a cap of 100 and an empty list |
| ChatStream.ChatStreamComponent.PushNew | aya-frontend-v2/src/app/components/chat-stream/chat-stream.component.ts:52-62 | as written: the new entry, flagged `init`, under a fresh key, pushed as `PushAsWritten` says |
| ChatStream.ChatStreamComponent.PushNewCorrected | aya-frontend-v2/src/app/components/chat-stream/chat-stream.component.ts:52-62 | corrected: pushed as `PushCapped` says, so the cap is kept |
| ChatStream.ChatStreamComponent.ChangeFirst | aya-frontend-v2/src/app/components/chat-stream/chat-stream.component.ts:79-94 | the change is made on the entry `find` returns, if any; the cap is kept |
| ChatStream.ChatStreamComponent.UpdateMessage | aya-frontend-v2/src/app/components/chat-stream/chat-stream.component.ts:50-98 | as written: "new" pushes, "edit" and "delete" change the first entry of the message id, any other kind does nothing |
| ChatStream.ChatStreamComponent.UpdateMessageCorrected | aya-frontend-v2/src/app/components/chat-stream/chat-stream.component.ts:50-98 | the same with the corrected push; the list never exceeds the cap |
| ChatStream.ChatStreamComponent.OnInitTimer | aya-frontend-v2/src/app/components/chat-stream/chat-stream.component.ts:63-65 | the entry the timer was started for has its `init` flag cleared, if still listed |
| ChatStream.ChatStreamComponent.OnTimeOut | aya-frontend-v2/src/app/components/chat-stream/chat-stream.component.ts:66-69 | the entry the timer was started for has its `remove` flag set, if still listed |
| ChatStream.ChatStreamComponent.OnRemoveTimer | aya-frontend-v2/src/app/components/chat-stream/chat-stream.component.ts:70-75 | while some entry shows the message id, the oldest entry is shifted out, whichever message it shows; otherwise nothing changes |
| ChatStream.TimerReachesOwnEntry | aya-frontend-v2/src/app/components/chat-stream/chat-stream.component.ts:63-69 | with distinct keys a timer's change reaches its own entry and no other |
| MessageView.GetIcon | aya-frontend-v2/src/app/components/message/message.component.ts:58-65 | a gear exactly for a bot, a shield exactly for an admin that is not a bot, no icon otherwise or without a message |
| MessageView.GetSource | aya-frontend-v2/src/app/components/message/message.component.ts:67-78 | a platform with a logo gets its logo; any other source, "test_source" included, and no message get the analog logo |
| MessageView.LogoTellsPlatform | aya-frontend-v2/src/app/components/message/message.component.ts:67-78 | two messages with the same logo, one from a platform with a logo, come from the same platform |
| MessageView.GetState | aya-frontend-v2/src/app/components/message/message.component.ts:80-85 | one of the four states: "init" exactly when the entry is initialising, else "deleted" when deleted, else "removed" when removed |
| MessageView.LoadedWhenNoFlag | aya-frontend-v2/src/app/components/message/message.component.ts:58-85 | "loaded" exactly when no flag is set or there is no message, which also has no icon and the analog logo |
| MessageView.EditDoesNotChangeState | aya-frontend-v2/src/app/components/message/message.component.ts:80-85 | an edit leaves the state unchanged |
| SessionDialog.SessionValidator | aya-frontend/src/app/components/session-dialog/session-dialog.component.ts:31-64 | Discord: a missing channel id, else a missing guild id, else valid; YouTube: a missing channel id, else valid; any other type: unknown |
| SessionDialog.ValidatorAcceptsComplete | aya-frontend/src/app/components/session-dialog/session-dialog.component.ts:31-64 | the validator accepts exactly the complete resources |
| SessionDialog.ChannelReportedBeforeGuild | aya-frontend/src/app/components/session-dialog/session-dialog.component.ts:39-46 | a Discord resource missing its channel id is reported for it, whatever the guild id |
| SessionDialog.RemoveAt | aya-frontend/src/app/components/session-dialog/session-dialog.component.ts:132 | one group fewer; the groups before the index keep their places and the later ones move up by one |
| SessionDialog.RemoveAtProperties | aya-frontend/src/app/components/session-dialog/session-dialog.component.ts:98-133 | removing the group just pushed gives back the array, and removing a group keeps a valid array valid |
| SessionDialog.SessionDialogComponent.constructor | aya-frontend/src/app/components/session-dialog/session-dialog.component.ts:98-102 | no resource group |
| SessionDialog.SessionDialogComponent.PushNewForm | aya-frontend/src/app/components/session-dialog/session-dialog.component.ts:108-122 | a Discord group with empty ids is appended, which makes the array invalid |
| SessionDialog.SessionDialogComponent.DeleteForm | aya-frontend/src/app/components/session-dialog/session-dialog.component.ts:128-133 | an index outside the array changes nothing; otherwise exactly that group goes; a valid array stays valid |

## Left out

- Goroutines, channels used for synchronisation, and mutexes. Each operation is modelled as one atomic step.
  - The older YouTube register's lock held until `Start` is modelled as a `blocked` flag.
  - Worker and supervisor loops run over the sequence of events that reach them.
- The composed emitters that merge the platforms' update channels, and the `UpdateEmitter` goroutines of
  `aya-backend/composed_emitter.go`. Their point is concurrency; only `parseConfig` is modelled.
- The composed hubs' periodic database refresh goroutine (`aya-backend/server-ws/hubs/composed_hub.go:43-59`).
  It is I/O on a timer.
- Websocket read/write loops, the HTTP upgrade and JSON encoding of outgoing messages. An upgrade failure
  is an input.
- The server-ws websocket server's `CheckOrigin` accepts every origin, so `WebsocketWs` has no origin
  check.
- Platform SDK calls are inputs or ghost call logs. They include:
  - YouTube search, videos and live-chat requests;
  - discordgo channel, member and role lookups and `UserColor`;
  - the twitch-irc `Join`, `Depart`, `Connect` and `Disconnect`.
- Regular-expression matching, `time.Parse`, `time.Format`, `encoding/json` and `url.Parse` are
  function-typed parameters. They are not interpreted.
- UTF-8 decoding: strings are sequences of runes.
- The YouTube emitter's API-key and OAuth set-up (`aya-backend/server-ws/chat_service/youtube/emitter.go:91-134`),
  including the goroutine `NewEmitter` starts for it. It is network I/O through foreign libraries. The
  register's `SetYTService`, which that goroutine ends with, is modelled.
- The YouTube chat-item parser (aya-backend/server-ws/chat_service/youtube/parser.go) is not part of this
  model. The registers take it as a parameter.
- The Discord parser's `ParseAuthor` (`aya-backend/server/service/discord/parser.go:262-280`) only copies
  fields out of SDK lookups.
- The Discord emitter's event payloads come from the message parser and are inputs.
- The Discord emitter's `CloseEmitter` and `UpdateEmitter`, and the emitters' channel getters, are left
  out. They only hand out or close Go channels and close the SDK client.
- GORM and the database: lookups in `SessionApi` are functions from a key to a lookup result.
  - The fields of `models.GORMSession` are those `aya-backend/server/api/session.go` uses.
  - `models/session.go` is not part of this model.
- OAuth/OIDC and JWT handling in the REST API: the verified claim is an input.
- Timers:
  - In the frontend they are events (`OnInitTimer`, `OnTimeOut`, `OnRemoveTimer`) fired with the entry's
    key.
  - In the backend the retry waits and the API throttle are clock readings passed in.
- Frontend rendering, animation triggers, HTTP and websocket services. A displayed entry's object identity is
  modelled as a `key` field.
- YoutubeRegister.YoutubeRegister.Start: the older register's `Start` calls `apiCaller.Start`, which the
  older API caller (`aya-backend/server/service/youtube/api_caller.go`) does not declare. It is modelled
  as handing the service to the API caller.
- YoutubeRegisterWs.Supervise: the newer listener closes its stream on a polling error without
  reporting it to the supervisor (aya-backend/server-ws/chat_service/youtube/register.go:95-129), so
  only setup errors lead to a retry.
- YoutubeRegister.SupervisorStep: follows one channel's supervisor. The register-wide `Stop` that a
  stop during the wait triggers is `YoutubeRegister.YoutubeRegister.Stop`, with its panics. Its effect on
  the other channels' supervisors is not followed.
- YoutubeRegister.YoutubeRegister.RemoveChannel and YoutubeRegister.YoutubeRegister.Stop: a send on a kill
  signal that no goroutine takes any more, and is still open, blocks for ever in the program. The model
  records it as a send. Only the closed signal's panic is an outcome.
- Websocket.WSServer.SendMessageToSession: treats every listed connection as read. After
  `WriterExits` nothing reads that connection's unbuffered channel, so in the program the send to it
  blocks for ever while holding the server's read lock, and every later send waits on that lock.
- ApiCallerOld.LiveChatApiCaller.Stop: the first stop is modelled as taken by the worker. A worker
  blocked on an answer (`ApiCallerOld.Worker` with `blocked`) never takes it, and that stop blocks too.
- ApiCaller.Worker: takes what reaches the worker as its input. No contract ties these events to the
  requests the caller class queues in `offered`, because their order depends on goroutine scheduling.
- DiscordParser.ParseInt64 models `strconv.ParseInt(s, 10, 64)` for base 10 only, the only base the parser
  uses.
- aya-backend/server-ws/hubs/discord.go and youtube.go are not part of this model. The hubs
  of aya-backend/server/hubs stand in for them inside `ComposedHubWs`.
- The composed hubs' `GetSessionId` and `RemoveSession` call the platform members the program
  calls. Their `GetSessionIdCorrected` and `RemoveSessionCorrected` call the corrected
  members `DiscordHub.DiscordResourceHub.GetSessionIdCorrected` and each hub's
  `RemoveSessionDeregistering`. `MainWs.DispatchCorrected` and `MainServer.DispatchCorrected`
  go through the corrected lookup.
- Snapshots that do not compile as a whole are not modelled:
  - `aya-backend/server/hubs/twitch.go` calls the YouTube diff with YouTube descriptors.
  - `aya-backend/server/composed_hub.go` calls a two-argument `AddSession` that no hub has.
  - `aya-backend/server/socket/websocket.go:46` calls the hub's `AddSession` with a session and a
    resource. The hub it imports has only a one-argument `AddSession`
    (`aya-backend/server/hubs/composed_hub.go:123`). `Websocket.RegistrationCalls` logs these calls
    without resolving them against a hub.
  - The root `aya-backend/service/youtube/parser.go` builds fields that `aya-backend/service/chat_message.go`
    lacks.
- Emitters whose filter comes from environment variables are not modelled, and neither are the test-source
  emitters. They are driven by an SDK pager or a timer.

## Findings

| source | as written | input that shows it | evidently intended | confidence | as-written member | corrected member |
|---|---|---|---|---|---|---|
| aya-backend/server/hubs/discord.go:40-45 | `GetSessionId` writes every watcher into `res[idx]` and never advances `idx`, so only slot 0 is filled and the other slots stay "" | a room watched by sessions "a" and "b": the result is one of them plus "" | each watching session listed once | not executed | DiscordHub.DiscordResourceHub.GetSessionId | DiscordHub.DiscordResourceHub.GetSessionIdCorrected |
| aya-backend/server/chat_service/twitch/emitter.go:115-120 | `NewEmitter` leaves `resource2Subscriber` nil, and `Register` writes into it at line 50 | any `Register` with a Twitch channel on a fresh emitter: a write to a nil map panics | the map made empty in `NewEmitter`, as the YouTube and Discord emitters do | not executed | TwitchEmitter.TwitchEmitter.Register | TwitchEmitter.TwitchEmitter.NewEmitterInitialised |
| aya-backend/server-ws/hubs/twitch.go:47-58 | `RemoveSession` unlinks the session from its rooms but makes no emitter call; the YouTube and Discord hubs do the same | session "s", the only watcher of channel "c", disconnects: the hub forgets "c", the emitter stays joined to it for "s" | one `Deregister` per room the session leaves, as `RegisterSessionResources` issues for a removed room | not executed | Agreement.RemoveSessionLeavesEmitterSubscribed | TwitchHub.TwitchResourceHub.RemoveSessionDeregistering |
| aya-backend/server-ws/hubs/composed_hub.go:96-102 | `RemoveSession` removes the session from the Discord and YouTube hubs only | a session watching a Twitch channel disconnects: the Twitch hub still lists it as a watcher of that channel | the session removed from all three platform hubs | not executed | ComposedHubWs.MessageHub.RemoveSession | ComposedHubWs.MessageHub.RemoveSessionCorrected |
| aya-backend/service/discord/parser.go:58-63 | a non-animated emoji gets the `.gif?v=1` image and an animated one the `.png` image | the custom emoji `<:wave:123>`: its image is `123.gif?v=1` | `.png` for a still emoji and `.gif?v=1` for an animated one, as in aya-backend/server/service/discord/parser.go:64-68 | not executed | DiscordParserOld.EmojiExtensionsSwapped | DiscordParserOld.ColoredPartCorrected |
| aya-backend/service/discord/parser.go:167 | `case Everyone:` has an empty body, so the token becomes an empty part | the message "@everyone": its only part has empty content | "@everyone" kept verbatim in white, like "@here" | not executed | DiscordParserOld.EveryoneLost | DiscordParserOld.ColoredPartCorrected |
| aya-frontend-v2/src/app/components/chat-stream/chat-stream.component.ts:60 | the trim test reads `displayMessages.find.length`, the arity of `find` (1), and compares it with `maxMessages` (100) | a list of 100 entries and one "new" update: the list grows to 101 and keeps growing | the oldest entry dropped once the list holds more than 100 | not executed | ChatStream.NeverTrimmed | ChatStream.ChatStreamComponent.PushNewCorrected |
| aya-backend/socket/websocket.go:45-48 | when a connection ends, its session id is deleted whatever channel it holds by then | two connections for id "s", the first one ends: "s" no longer reaches the second, open connection | the id deleted only while it still holds the ending connection's channel | not executed | WebsocketLegacy.StaleCloseDropsCurrentChannel | WebsocketLegacy.WSServer.DisconnectCorrected |
| aya-backend/server/main.go:136 | the main loop asks the hub with the bare `msg.ExtraFields`, while the hub only answers for a `models.Resource` | a Discord update for a channel a session watches: the hub answers [] and nobody receives it | the routing key wrapped in a `models.Resource` with the update's source, as in aya-backend/server-ws/main.go:128-134 | not executed | MainServer.BareKeyFindsNoWatcher | MainServer.DispatchCorrected |
| aya-backend/server/service/youtube/register.go:103-123 | each attempt makes its answer channels unbuffered, and on a stop it returns while its last request is still with the API caller, whose worker then waits for ever to hand over the answer (api_caller.go:52, 55) | channel "c" is removed while its first page request is outstanding: the worker never finishes that send, so no other channel's request is served and a later `Stop` of the caller blocks | the answer handed over whether or not the attempt still reads it, e.g. channels with room for one value | not executed | ApiCallerOld.Worker | ApiCallerOld.WorkerCorrected |
