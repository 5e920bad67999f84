// aya-backend/service/discord/parser.go: the first Discord message parser.
// It splits a message the same way as module DiscordParser, without the
// timestamp token, and its message parts hold an emoji and a format by value
// (the zero value standing for none). Two of its coloured parts differ from
// the newer parser's: the emoji image extensions are swapped, and the
// `@everyone` case has an empty body, so the token becomes an empty part.

module DiscordParserOld {
  import opened Common
  import opened ChatMessage
  import opened DiscordParser

  /** The older `MessagePart`: text, emoji and format, each a plain value. */
  datatype OldPart = OldPart(content: string, emoji: Emoji, format: Format)

  const NoEmoji: Emoji := Emoji("", "")
  const NoFormat: Format := Format("")
  const ZeroPart: OldPart := OldPart("", NoEmoji, NoFormat)
  const WhiteFormat: Format := Format("#ffffff")

  /** `getEmojiInfo` as written: a static emoji (no `a` flag) gets the animated image
      `<id>.gif?v=1` and an animated one the static `<id>.png`. */
  function GetEmojiInfoAsWritten(emojiSplit: string -> Option<EmojiGroups>, emojiStr: string): (e: Emoji)
    ensures emojiSplit(emojiStr).None? ==> e == NoEmoji
    ensures emojiSplit(emojiStr).Some? && emojiSplit(emojiStr).value.animated == "" ==>
              e == Emoji(EmojiCdn + emojiSplit(emojiStr).value.id + ".gif?v=1", emojiSplit(emojiStr).value.name)
    ensures emojiSplit(emojiStr).Some? && emojiSplit(emojiStr).value.animated != "" ==>
              e == Emoji(EmojiCdn + emojiSplit(emojiStr).value.id + ".png", emojiSplit(emojiStr).value.name)
  {
    var items := emojiSplit(emojiStr);
    if items.None? then NoEmoji
    else
      var id := items.value.id;
      if items.value.animated == "" then Emoji(EmojiCdn + id + ".gif?v=1", items.value.name)
      else Emoji(EmojiCdn + id + ".png", items.value.name)
  }

  /** For every matched emoji the written image is the other kind's: the two versions
      agree on no matched emoji. */
  lemma EmojiExtensionsSwapped(emojiSplit: string -> Option<EmojiGroups>, emojiStr: string)
    requires emojiSplit(emojiStr).Some?
    ensures GetEmojiInfoAsWritten(emojiSplit, emojiStr).id != GetEmojiInfo(emojiSplit, emojiStr).id
    ensures GetEmojiInfoAsWritten(emojiSplit, emojiStr).alt == GetEmojiInfo(emojiSplit, emojiStr).alt
  {
    var id := emojiSplit(emojiStr).value.id;
    var png := EmojiCdn + id + ".png";
    var gif := EmojiCdn + id + ".gif?v=1";
    assert png[|EmojiCdn| + |id|..] == ".png";
    assert gif[|EmojiCdn| + |id|..] == ".gif?v=1";
  }

  /** The coloured parts the two versions share: channel and user and role mentions
      (`None` for any other alternative). */
  function SharedPart(env: Environment, message: DgMessage, content: string, matchedRegex: int): (p: Option<OldPart>)
    ensures p.Some? <==> matchedRegex in {ChannelRegex, MentionRegex, RoleRegex}
    ensures p.Some? ==> p.value.emoji == NoEmoji && |p.value.format.color| >= 7 && p.value.content != ""
  {
    if matchedRegex in {ChannelRegex, MentionRegex, RoleRegex} then
      var r := if matchedRegex == ChannelRegex then
                 var channel := env.channelName(GetIdWithRegex(content, env.channelSplit));
                 if channel.None? then OldPart("#unknown-channel", NoEmoji, WhiteFormat)
                 else OldPart("#" + channel.value, NoEmoji, WhiteFormat)
               else if matchedRegex == MentionRegex then
                 var userId := GetIdWithRegex(content, env.mentionSplit);
                 var member := env.member(message.guildId, userId);
                 if member.None? then OldPart("@unknown-user", NoEmoji, WhiteFormat)
                 else
                   var username := if member.value.nick == "" then member.value.username else member.value.nick;
                   OldPart("@" + username, NoEmoji, Format(ColorHex(env.userColor(userId, message.channelId))))
               else
                 var guildRoles := env.guildRoles(message.guildId);
                 if guildRoles.None? then OldPart("@unknown-role", NoEmoji, WhiteFormat)
                 else
                   var idx := RoleIndex(guildRoles.value, GetIdWithRegex(content, env.roleSplit));
                   if idx == -1 then OldPart("@unknown-role", NoEmoji, WhiteFormat)
                   else OldPart("@" + guildRoles.value[idx].name, NoEmoji, Format(ColorHex(guildRoles.value[idx].color)));
      Some(r)
    else None
  }

  /** The shared parts say what the newer parser's parts say. */
  lemma SharedPartsAgree(env: Environment, message: DgMessage, content: string, matchedRegex: int)
    requires matchedRegex in {ChannelRegex, MentionRegex, RoleRegex}
    ensures SharedPart(env, message, content, matchedRegex).value.content == ColoredPart(env, message, content, matchedRegex).content
    ensures Some(SharedPart(env, message, content, matchedRegex).value.format) == ColoredPart(env, message, content, matchedRegex).format
  {
  }

  /** `parsingColoredContent` as written: the `Everyone` case does nothing, so an
      `@everyone` token becomes the zero part. */
  function ColoredPartAsWritten(env: Environment, message: DgMessage, content: string, matchedRegex: int): (p: OldPart)
    ensures matchedRegex == EmojiRegex ==> p == OldPart("", GetEmojiInfoAsWritten(env.emojiSplit, content), NoFormat)
    ensures matchedRegex == Everyone ==> p == ZeroPart
    ensures matchedRegex == Here ==> p == OldPart(content, NoEmoji, WhiteFormat)
    ensures !(0 <= matchedRegex <= Here) ==> p == ZeroPart
  {
    if matchedRegex == EmojiRegex then OldPart("", GetEmojiInfoAsWritten(env.emojiSplit, content), NoFormat)
    else if matchedRegex in {ChannelRegex, MentionRegex, RoleRegex} then SharedPart(env, message, content, matchedRegex).value
    else if matchedRegex == Here then OldPart(content, NoEmoji, WhiteFormat)
    else ZeroPart
  }

  /** The coloured parts as evidently intended: the newer parser's emoji images, and
      `@everyone` shown like `@here`. */
  function ColoredPartCorrected(env: Environment, message: DgMessage, content: string, matchedRegex: int): (p: OldPart)
    ensures matchedRegex == EmojiRegex ==> p == OldPart("", GetEmojiInfo(env.emojiSplit, content), NoFormat)
    ensures matchedRegex in {Everyone, Here} ==> p == OldPart(content, NoEmoji, WhiteFormat)
    ensures !(0 <= matchedRegex <= Here) ==> p == ZeroPart
  {
    if matchedRegex == EmojiRegex then OldPart("", GetEmojiInfo(env.emojiSplit, content), NoFormat)
    else if matchedRegex in {ChannelRegex, MentionRegex, RoleRegex} then SharedPart(env, message, content, matchedRegex).value
    else if matchedRegex == Everyone || matchedRegex == Here then OldPart(content, NoEmoji, WhiteFormat)
    else ZeroPart
  }

  /** `@everyone` in a message: as written its part is empty, corrected it shows the token. */
  lemma EveryoneLost(env: Environment, message: DgMessage)
    ensures ColoredPartAsWritten(env, message, "@everyone", Everyone).content == ""
    ensures ColoredPartCorrected(env, message, "@everyone", Everyone).content == "@everyone"
  {
  }

  /** A plain part of the older parser. */
  function OldText(s: string): OldPart
  {
    OldPart(s, NoEmoji, NoFormat)
  }

  predicate IsOldText(p: OldPart)
  {
    p.emoji == NoEmoji && p.format == NoFormat && p.content != ""
  }

  /** The coloured part of one match, as written. */
  function MatchPartAsWritten(env: Environment, message: DgMessage, m: Match): OldPart
  {
    ColoredPartAsWritten(env, message, m.text, FirstNonEmpty(m.groups))
  }

  /** The coloured part of one match, corrected. */
  function MatchPartCorrected(env: Environment, message: DgMessage, m: Match): OldPart
  {
    ColoredPartCorrected(env, message, m.text, FirstNonEmpty(m.groups))
  }

  /** `ParseMessage` as written. */
  method ParseMessageAsWritten(env: Environment, message: DgMessage) returns (messageParts: seq<OldPart>)
    ensures var contents := env.split(message.content);
            messageParts == Assembled(contents, env.findAll(message.content), m => MatchPartAsWritten(env, message, m), OldText, |contents|)
  {
    var delimiters := env.findAll(message.content);
    var contents := env.split(message.content);
    messageParts := AssembleParts(contents, delimiters, m => MatchPartAsWritten(env, message, m), OldText);
  }

  /** `ParseMessage` with the corrected coloured parts. */
  method ParseMessage(env: Environment, message: DgMessage) returns (messageParts: seq<OldPart>)
    ensures var contents := env.split(message.content);
            messageParts == Assembled(contents, env.findAll(message.content), m => MatchPartCorrected(env, message, m), OldText, |contents|)
  {
    var delimiters := env.findAll(message.content);
    var contents := env.split(message.content);
    messageParts := AssembleParts(contents, delimiters, m => MatchPartCorrected(env, message, m), OldText);
  }

  /** With the corrected parts, the message keeps its non-empty pieces as plain parts, in
      order, one coloured part per used token, in order, and an `@everyone` or `@here`
      token keeps its text. */
  lemma ParsedMessageParts(env: Environment, message: DgMessage)
    ensures var contents := env.split(message.content);
            var delimiters := env.findAll(message.content);
            var parts := Assembled(contents, delimiters, m => MatchPartCorrected(env, message, m), OldText, |contents|);
            Keep(parts, IsOldText) == PlainsOf(contents, OldText) &&
            Drop(parts, IsOldText) ==
              ColoredsOf(delimiters[..UsedMatches(|contents|, delimiters)], m => MatchPartCorrected(env, message, m))
    ensures forall m: Match :: FirstNonEmpty(m.groups) in {Everyone, Here} ==> MatchPartCorrected(env, message, m).content == m.text
  {
    var contents := env.split(message.content);
    var delimiters := env.findAll(message.content);
    forall m: Match ensures !IsOldText(MatchPartCorrected(env, message, m)) {
    }
    AssembledPlains(contents, delimiters, m => MatchPartCorrected(env, message, m), OldText, IsOldText, |contents|);
    AssembledColoreds(contents, delimiters, m => MatchPartCorrected(env, message, m), OldText, IsOldText, |contents|);
    assert contents[..|contents|] == contents;
  }
}
