// The platform-neutral message envelope of aya-backend/server/chat_service:
// the Source and Update enumerations with their string and JSON codecs, the
// message body, the routing key carried beside it (ExtraFields), and the
// resource descriptors the hubs index by.

module ChatMessage {
  import opened Common

  // Source values (Go `type Source int` with iota constants).
  const Discord: int := 0
  const Twitch: int := 1
  const Youtube: int := 2
  const TestSource: int := 3

  // Update values.
  const New: int := 0
  const Delete: int := 1
  const Edit: int := 2

  /** The names of the four sources, indexed by their value. */
  const SourceNames: seq<string> := ["discord", "twitch", "youtube", "test_source"]
  /** The names of the three update kinds, indexed by their value. */
  const UpdateNames: seq<string> := ["new", "delete", "edit"]

  /** `Source.String`: the name of a known source; the empty string for any other value. */
  function SourceString(s: int): (name: string)
    ensures 0 <= s < |SourceNames| ==> name == SourceNames[s]
    ensures !(0 <= s < |SourceNames|) ==> name == ""
  {
    if 0 <= s < |SourceNames| then SourceNames[s] else ""
  }

  /** `ParseSource`: the value of a known name, or -1 together with an error. */
  function ParseSource(name: string): (r: (int, bool))
    ensures r.1 <==> name in SourceNames
    ensures r.1 ==> 0 <= r.0 < |SourceNames| && SourceNames[r.0] == name
    ensures !r.1 ==> r.0 == -1
  {
    if name == "discord" then (Discord, true)
    else if name == "twitch" then (Twitch, true)
    else if name == "youtube" then (Youtube, true)
    else if name == "test_source" then (TestSource, true)
    else (-1, false)
  }

  /** `Update.String`. */
  function UpdateString(u: int): (name: string)
    ensures 0 <= u < |UpdateNames| ==> name == UpdateNames[u]
    ensures !(0 <= u < |UpdateNames|) ==> name == ""
  {
    if 0 <= u < |UpdateNames| then UpdateNames[u] else ""
  }

  /** `ParseUpdate`. */
  function ParseUpdate(name: string): (r: (int, bool))
    ensures r.1 <==> name in UpdateNames
    ensures r.1 ==> 0 <= r.0 < |UpdateNames| && UpdateNames[r.0] == name
    ensures !r.1 ==> r.0 == -1
  {
    if name == "new" then (New, true)
    else if name == "delete" then (Delete, true)
    else if name == "edit" then (Edit, true)
    else (-1, false)
  }

  lemma SourceRoundTrip(s: int)
    requires 0 <= s < |SourceNames|
    ensures ParseSource(SourceString(s)) == (s, true)
  {
  }

  lemma SourceNameRoundTrip(name: string)
    requires name in SourceNames
    ensures SourceString(ParseSource(name).0) == name
  {
  }

  lemma UpdateRoundTrip(u: int)
    requires 0 <= u < |UpdateNames|
    ensures ParseUpdate(UpdateString(u)) == (u, true)
  {
  }

  /** A JSON document as far as decoding it into a Go string is concerned. */
  datatype Json = JString(text: string) | JNull | JOther | Malformed

  /** `json.Marshal` of a Go string. */
  function MarshalString(s: string): Json { JString(s) }

  /** `json.Unmarshal` into a Go string variable that starts out empty:
      a string literal sets it, `null` leaves it empty, anything else fails. */
  function UnmarshalString(data: Json): (r: (string, bool))
    ensures r.1 <==> data.JString? || data.JNull?
    ensures data.JString? ==> r.0 == data.text
    ensures !data.JString? ==> r.0 == ""
  {
    match data
    case JString(text) => (text, true)
    case JNull => ("", true)
    case _ => ("", false)
  }

  /** `Source.MarshalJSON`: the name as a JSON string. */
  function MarshalSource(s: int): Json { MarshalString(SourceString(s)) }

  /** `(*Source).UnmarshalJSON`: the receiver's new value and whether it succeeded.
      A JSON error leaves the receiver alone; a name error stores -1 in it. */
  function UnmarshalSource(receiver: int, data: Json): (r: (int, bool))
    ensures !(data.JString? || data.JNull?) ==> r == (receiver, false)
    ensures (data.JString? || data.JNull?) ==> r == ParseSource(UnmarshalString(data).0)
  {
    var (text, ok) := UnmarshalString(data);
    if !ok then (receiver, false) else ParseSource(text)
  }

  /** `Update.MarshalJSON`. */
  function MarshalUpdate(u: int): Json { MarshalString(UpdateString(u)) }

  /** `(*Update).UnmarshalJSON`. */
  function UnmarshalUpdate(receiver: int, data: Json): (r: (int, bool))
    ensures !(data.JString? || data.JNull?) ==> r == (receiver, false)
    ensures (data.JString? || data.JNull?) ==> r == ParseUpdate(UnmarshalString(data).0)
  {
    var (text, ok) := UnmarshalString(data);
    if !ok then (receiver, false) else ParseUpdate(text)
  }

  /** Encoding a known source and decoding it again restores it, whatever the receiver held. */
  lemma SourceJsonRoundTrip(s: int, receiver: int)
    requires 0 <= s < |SourceNames|
    ensures UnmarshalSource(receiver, MarshalSource(s)) == (s, true)
  {
  }

  /** An unknown source value encodes as "" and fails to decode, leaving -1 behind. */
  lemma UnknownSourceJson(s: int, receiver: int)
    requires !(0 <= s < |SourceNames|)
    ensures UnmarshalSource(receiver, MarshalSource(s)) == (-1, false)
  {
  }

  lemma UpdateJsonRoundTrip(u: int, receiver: int)
    requires 0 <= u < |UpdateNames|
    ensures UnmarshalUpdate(receiver, MarshalUpdate(u)) == (u, true)
  {
  }

  // ----- message body -----

  datatype Emoji = Emoji(id: string, alt: string)
  datatype Format = Format(color: string)
  datatype MessagePart = MessagePart(content: string, emoji: Option<Emoji>, format: Option<Format>)
  datatype Author = Author(username: string, isAdmin: bool, isBot: bool, color: string)
  datatype Message = Message(source: int, id: string, author: Author,
                             messageParts: seq<MessagePart>, attachments: seq<string>)

  const EmptyAuthor: Author := Author("", false, false, "")
  const EmptyPart: MessagePart := MessagePart("", None, None)

  /** A Go `any` value as the hubs and the dispatcher see it: one of the
      resource descriptors, a `models.Resource`, or a value of any other type. */
  datatype Info =
    | TwitchInfo(twitchChannelName: string)
    | DiscordInfo(discordGuildId: string, discordChannelId: string)
    | YoutubeInfo(youtubeChannelId: string)
    | ResourceValue(resource: Resource)
    | OtherValue

  /** The static descriptor types: a Go parameter typed `TwitchInfo` (and so on) only holds that kind. */
  type TwitchDescriptor = i: Info | i.TwitchInfo? witness TwitchInfo("")
  type DiscordDescriptor = i: Info | i.DiscordInfo? witness DiscordInfo("", "")
  type YoutubeDescriptor = i: Info | i.YoutubeInfo? witness YoutubeInfo("")

  /** `models.Resource`: a source tag and a descriptor. */
  datatype Resource = Resource(resourceType: int, resourceInfo: Info)

  /** The envelope: the time, the kind of update, the message, and the routing key. */
  datatype MessageUpdate = MessageUpdate(updateTime: int, update: int, message: Message, extraFields: Info)

  /** The JSON form of an envelope: `ExtraFields` is tagged `json:"-"` and never written. */
  datatype WireUpdate = WireUpdate(updateTime: int, update: Json, message: Message)

  function Wire(m: MessageUpdate): (w: WireUpdate)
    ensures w.updateTime == m.updateTime && w.message == m.message
    ensures UnmarshalUpdate(-1, w.update).0 == (if 0 <= m.update < |UpdateNames| then m.update else -1)
  {
    WireUpdate(m.updateTime, MarshalUpdate(m.update), m.message)
  }

  /** The routing key never reaches the wire. */
  lemma RoutingKeyNotSerialised(m: MessageUpdate, key: Info)
    ensures Wire(m.(extraFields := key)) == Wire(m)
  {
  }
}
