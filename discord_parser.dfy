// aya-backend/server/service/discord/parser.go: turns a Discord message into
// message parts. One combined regular expression finds the special tokens
// (custom emojis, channel, user and role mentions, @everyone, @here and
// timestamps); the text between them becomes plain parts and each token a
// coloured part, in order. The regular-expression engine, the Discord client's
// lookups and `time.Format` are inputs; `%06x` and `strconv.ParseInt` are
// written out.

module DiscordParser {
  import opened Common
  import opened ChatMessage

  // ----- assembling parts -----

  /** One match of the combined expression: the matched text and its capture groups, one
      per alternative (`FindAllStringSubmatch`). */
  datatype Match = Match(text: string, groups: seq<string>)

  /** `slices.IndexFunc(groups, non-empty)`: the alternative that matched, -1 if none. */
  function FirstNonEmpty(groups: seq<string>): (idx: int)
    ensures -1 <= idx < |groups|
    ensures idx >= 0 ==> groups[idx] != "" && forall k :: 0 <= k < idx ==> groups[k] == ""
    ensures idx == -1 ==> forall k :: 0 <= k < |groups| ==> groups[k] == ""
  {
    if groups == [] then -1
    else if groups[0] != "" then 0
    else
      var rest := FirstNonEmpty(groups[1..]);
      if rest == -1 then -1 else rest + 1
  }

  /** What round `i` of the `ParseMessage` loop appends: the coloured part of the match
      before piece `i`, when there is one, then piece `i` as plain text unless it is empty. */
  function Piece<P>(contents: seq<string>, delimiters: seq<Match>, colored: Match -> P, plain: string -> P, i: nat): seq<P>
    requires i < |contents|
  {
    (if i > 0 && |delimiters| > i - 1 then [colored(delimiters[i - 1])] else []) +
    (if contents[i] != "" then [plain(contents[i])] else [])
  }

  /** The parts after the first `n` rounds. */
  function Assembled<P>(contents: seq<string>, delimiters: seq<Match>, colored: Match -> P, plain: string -> P, n: nat): seq<P>
    requires n <= |contents|
  {
    if n == 0 then [] else Assembled(contents, delimiters, colored, plain, n - 1) + Piece(contents, delimiters, colored, plain, n - 1)
  }

  /** The loop of `ParseMessage`: the pieces `Split` cut out, interleaved with the parts
      the matches between them give. */
  method AssembleParts<P>(contents: seq<string>, delimiters: seq<Match>, colored: Match -> P, plain: string -> P)
    returns (messageParts: seq<P>)
    ensures messageParts == Assembled(contents, delimiters, colored, plain, |contents|)
  {
    messageParts := [];
    for i := 0 to |contents|
      invariant messageParts == Assembled(contents, delimiters, colored, plain, i)
    {
      if i > 0 && |delimiters| > i - 1 {
        messageParts := messageParts + [colored(delimiters[i - 1])];
      }
      if contents[i] != "" {
        messageParts := messageParts + [plain(contents[i])];
      }
    }
  }

  /** The elements of `xs` that satisfy `keep`, in order. */
  function Keep<P>(xs: seq<P>, keep: P -> bool): seq<P>
  {
    if xs == [] then []
    else Keep(xs[..|xs| - 1], keep) + (if keep(xs[|xs| - 1]) then [xs[|xs| - 1]] else [])
  }

  /** The elements of `xs` that do not satisfy `keep`, in order. */
  function Drop<P>(xs: seq<P>, keep: P -> bool): seq<P>
  {
    if xs == [] then []
    else Drop(xs[..|xs| - 1], keep) + (if keep(xs[|xs| - 1]) then [] else [xs[|xs| - 1]])
  }

  lemma {:induction false} KeepAppend<P>(xs: seq<P>, ys: seq<P>, keep: P -> bool)
    ensures Keep(xs + ys, keep) == Keep(xs, keep) + Keep(ys, keep)
    ensures Drop(xs + ys, keep) == Drop(xs, keep) + Drop(ys, keep)
  {
    if ys == [] {
      assert xs + ys == xs;
    } else {
      var n := |ys| - 1;
      var last := ys[n];
      KeepAppend(xs, ys[..n], keep);
      AppendInit(xs, ys);
      ConcatAssoc(Keep(xs, keep), Keep(ys[..n], keep), if keep(last) then [last] else []);
      ConcatAssoc(Drop(xs, keep), Drop(ys[..n], keep), if keep(last) then [] else [last]);
    }
  }

  /** The plain parts of the non-empty pieces, in order. */
  function PlainsOf<P>(contents: seq<string>, plain: string -> P): seq<P>
  {
    if contents == [] then []
    else
      var n := |contents| - 1;
      PlainsOf(contents[..n], plain) + (if contents[n] != "" then [plain(contents[n])] else [])
  }

  /** One more piece adds its plain part at the end, unless it is empty. */
  lemma PlainsSnoc<P>(contents: seq<string>, k: nat, plain: string -> P)
    requires k < |contents|
    ensures PlainsOf(contents[..k + 1], plain) ==
            PlainsOf(contents[..k], plain) + (if contents[k] != "" then [plain(contents[k])] else [])
  {
    assert contents[..k + 1][..k] == contents[..k];
  }

  /** The coloured parts of the matches, in order. */
  function ColoredsOf<P>(delimiters: seq<Match>, colored: Match -> P): (r: seq<P>)
    ensures |r| == |delimiters|
  {
    if delimiters == [] then [] else ColoredsOf(delimiters[..|delimiters| - 1], colored) + [colored(delimiters[|delimiters| - 1])]
  }

  /** One more match adds its coloured part at the end. */
  lemma ColoredsSnoc<P>(delimiters: seq<Match>, k: nat, colored: Match -> P)
    requires k < |delimiters|
    ensures ColoredsOf(delimiters[..k + 1], colored) == ColoredsOf(delimiters[..k], colored) + [colored(delimiters[k])]
  {
    assert delimiters[..k + 1][..k] == delimiters[..k];
  }

  /** How many matches the first `n` rounds used: one per round after the first, while
      matches last. */
  function UsedMatches(n: nat, delimiters: seq<Match>): (k: nat)
    ensures k <= |delimiters|
  {
    if n == 0 then 0 else if n - 1 < |delimiters| then n - 1 else |delimiters|
  }

  /** Taking a piece's plain and coloured parts apart. */
  lemma PieceKinds<P>(contents: seq<string>, delimiters: seq<Match>, colored: Match -> P, plain: string -> P,
                      isPlain: P -> bool, i: nat)
    requires i < |contents|
    requires forall m :: !isPlain(colored(m))
    requires forall s :: s != "" ==> isPlain(plain(s))
    ensures Keep(Piece(contents, delimiters, colored, plain, i), isPlain) ==
            (if contents[i] != "" then [plain(contents[i])] else [])
    ensures Drop(Piece(contents, delimiters, colored, plain, i), isPlain) ==
            (if i > 0 && |delimiters| > i - 1 then [colored(delimiters[i - 1])] else [])
  {
    var c: seq<P> := if i > 0 && |delimiters| > i - 1 then [colored(delimiters[i - 1])] else [];
    var t: seq<P> := if contents[i] != "" then [plain(contents[i])] else [];
    KeepAppend(c, t, isPlain);
    if c != [] {
      assert c[..0] == [];
    }
    if t != [] {
      assert t[..0] == [];
    }
  }

  /** When plain parts and coloured parts can be told apart, the parsed parts hold, in
      order, exactly the non-empty pieces as plain parts: no text is lost or reordered. */
  lemma {:induction false} AssembledPlains<P>(contents: seq<string>, delimiters: seq<Match>, colored: Match -> P,
                                              plain: string -> P, isPlain: P -> bool, n: nat)
    requires n <= |contents|
    requires forall m :: !isPlain(colored(m))
    requires forall s :: s != "" ==> isPlain(plain(s))
    ensures Keep(Assembled(contents, delimiters, colored, plain, n), isPlain) == PlainsOf(contents[..n], plain)
  {
    if n > 0 {
      var before := Assembled(contents, delimiters, colored, plain, n - 1);
      var piece := Piece(contents, delimiters, colored, plain, n - 1);
      AssembledPlains(contents, delimiters, colored, plain, isPlain, n - 1);
      KeepAppend(before, piece, isPlain);
      PieceKinds(contents, delimiters, colored, plain, isPlain, n - 1);
      PlainsSnoc(contents, n - 1, plain);
    }
  }

  /** ... and, in order, one coloured part per used match: every token between two
      pieces is rendered once. */
  lemma {:induction false} AssembledColoreds<P>(contents: seq<string>, delimiters: seq<Match>, colored: Match -> P,
                                                plain: string -> P, isPlain: P -> bool, n: nat)
    requires n <= |contents|
    requires forall m :: !isPlain(colored(m))
    requires forall s :: s != "" ==> isPlain(plain(s))
    ensures Drop(Assembled(contents, delimiters, colored, plain, n), isPlain) ==
            ColoredsOf(delimiters[..UsedMatches(n, delimiters)], colored)
  {
    if n > 0 {
      var before := Assembled(contents, delimiters, colored, plain, n - 1);
      var piece := Piece(contents, delimiters, colored, plain, n - 1);
      AssembledColoreds(contents, delimiters, colored, plain, isPlain, n - 1);
      KeepAppend(before, piece, isPlain);
      PieceKinds(contents, delimiters, colored, plain, isPlain, n - 1);
      var k := UsedMatches(n, delimiters);
      if n - 1 > 0 && |delimiters| > n - 2 {
        assert k == n - 1 && UsedMatches(n - 1, delimiters) == n - 2;
        assert Drop(piece, isPlain) == [colored(delimiters[n - 2])];
        ColoredsSnoc(delimiters, n - 2, colored);
      } else {
        assert k == UsedMatches(n - 1, delimiters);
        assert Drop(piece, isPlain) == [];
      }
    }
  }

  // ----- formatting -----

  /** A lower-case hexadecimal digit. */
  predicate IsHexDigit(c: char)
  {
    '0' <= c <= '9' || 'a' <= c <= 'f'
  }

  /** The value of one hexadecimal digit. */
  function HexDigitValue(c: char): int
  {
    if '0' <= c <= '9' then c as int - '0' as int else c as int - 'a' as int + 10
  }

  /** The digit `%x` writes for a value below 16. */
  function HexDigit(d: nat): (c: char)
    requires d < 16
    ensures IsHexDigit(c) && HexDigitValue(c) == d
  {
    if d < 10 then ('0' as int + d) as char else ('a' as int + d - 10) as char
  }

  /** A string of lower-case hexadecimal digits. */
  predicate IsHex(s: string)
  {
    forall i :: 0 <= i < |s| ==> IsHexDigit(s[i])
  }

  /** `%x` of a natural number: lower-case hexadecimal without leading zeros. */
  function Hex(n: nat): (s: string)
    ensures 1 <= |s| && IsHex(s)
    ensures n >= 16 ==> |s| >= 2
  {
    if n < 16 then [HexDigit(n)] else Hex(n / 16) + [HexDigit(n % 16)]
  }

  /** The value of a string of hexadecimal digits. */
  function HexValue(s: string): nat
    requires IsHex(s)
  {
    if s == [] then 0
    else
      var n := |s| - 1;
      assert IsHex(s[..n]) by {
        assert forall i :: 0 <= i < n ==> s[..n][i] == s[i];
      }
      HexValue(s[..n]) * 16 + HexDigitValue(s[n])
  }

  /** `%x` loses nothing: the digits read back as the number. */
  lemma {:induction false} HexRoundTrip(n: nat)
    ensures HexValue(Hex(n)) == n
  {
    if n >= 16 {
      var h := Hex(n);
      HexRoundTrip(n / 16);
      assert h[..|h| - 1] == Hex(n / 16);
      assert HexDigitValue(h[|h| - 1]) == n % 16;
    }
  }

  /** Zeros in front of `s` up to `width` runes. */
  function PadZeros(s: string, width: nat): (r: string)
    ensures |r| == if |s| < width then width else |s|
    ensures r[|r| - |s|..] == s
    ensures forall i :: 0 <= i < |r| - |s| ==> r[i] == '0'
  {
    if |s| < width then seq(width - |s|, _ => '0') + s else s
  }

  /** `fmt.Sprintf("#%06x", color)`: a zero-padded six-digit colour for a 24-bit value; a
      negative value keeps its sign inside the width. */
  function ColorHex(color: int): (r: string)
    ensures |r| >= 7 && r[0] == '#'
  {
    if color >= 0 then "#" + PadZeros(Hex(color), 6) else "#-" + PadZeros(Hex(-color), 5)
  }

  /** Hex(n) has at most six digits for a 24-bit value. */
  lemma {:induction false} HexLength(n: nat, digits: nat)
    requires n < Pow16(digits) && digits >= 1
    ensures |Hex(n)| <= digits
  {
    if n >= 16 {
      HexLength(n / 16, digits - 1);
    }
  }

  function Pow16(k: nat): nat
  {
    if k == 0 then 1 else 16 * Pow16(k - 1)
  }

  /** A 24-bit colour reads back from its six digits. */
  lemma ColorHexRoundTrip(color: int)
    requires 0 <= color < 0x1000000
    ensures HexValue(ColorHex(color)[1..]) == color
  {
    HexLength(color, 6);
    HexRoundTrip(color);
    var h := Hex(color);
    var p := PadZeros(h, 6);
    assert ColorHex(color)[1..] == p;
    LeadingZeros(p, |p| - |h|);
    assert p[|p| - |h|..] == h;
  }

  /** Leading zeros do not change a hexadecimal value. */
  lemma {:induction false} LeadingZeros(s: string, k: nat)
    requires k <= |s| && IsHex(s)
    requires forall i :: 0 <= i < k ==> s[i] == '0'
    ensures IsHex(s[k..]) && HexValue(s) == HexValue(s[k..])
  {
    assert forall i :: 0 <= i < |s| - k ==> s[k..][i] == s[k + i];
    if k > 0 && |s| > k {
      var n := |s| - 1;
      var t := s[k..];
      assert forall i :: 0 <= i < n ==> s[..n][i] == s[i];
      LeadingZeros(s[..n], k);
      assert s[..n][k..] == t[..|t| - 1];
      assert t[|t| - 1] == s[n];
    } else if k > 0 {
      ZerosValue(s);
    }
  }

  lemma {:induction false} ZerosValue(s: string)
    requires forall i :: 0 <= i < |s| ==> s[i] == '0'
    ensures IsHex(s) && HexValue(s) == 0
  {
    if s != [] {
      ZerosValue(s[..|s| - 1]);
    }
  }

  // ----- strconv.ParseInt(s, 10, 64) -----

  const MaxInt64: int := 0x7fff_ffff_ffff_ffff
  const MinInt64: int := -0x8000_0000_0000_0000

  predicate IsDigits(s: string)
  {
    |s| >= 1 && forall i :: 0 <= i < |s| ==> '0' <= s[i] <= '9'
  }

  /** The value of a string of decimal digits. */
  function DecimalValue(s: string): nat
    requires forall i :: 0 <= i < |s| ==> '0' <= s[i] <= '9'
  {
    if s == [] then 0 else DecimalValue(s[..|s| - 1]) * 10 + (s[|s| - 1] as int - '0' as int)
  }

  /** `strconv.ParseInt(s, 10, 64)`: an optional sign and at least one digit, in the range
      of a 64-bit integer; anything else is an error (`None`). */
  function ParseInt64(s: string): (r: Option<int>)
    ensures r.Some? ==> MinInt64 <= r.value <= MaxInt64
    ensures IsDigits(s) ==> (r.Some? <==> DecimalValue(s) <= MaxInt64)
    ensures IsDigits(s) && r.Some? ==> r.value == DecimalValue(s)
    ensures s == [] ==> r.None?
  {
    var negative := |s| > 0 && s[0] == '-';
    var digits := if |s| > 0 && (s[0] == '-' || s[0] == '+') then s[1..] else s;
    if !IsDigits(digits) then None
    else
      var v: int := if negative then -(DecimalValue(digits) as int) else DecimalValue(digits);
      if MinInt64 <= v <= MaxInt64 then Some(v) else None
  }

  /** A digit string has at most its length's power of ten as value. */
  lemma {:induction false} DecimalBound(s: string)
    requires IsDigits(s) || s == []
    ensures DecimalValue(s) < Pow10(|s|)
  {
    if s != [] {
      if |s| > 1 {
        DecimalBound(s[..|s| - 1]);
      }
    }
  }

  function Pow10(k: nat): nat
  {
    if k == 0 then 1 else 10 * Pow10(k - 1)
  }

  /** A timestamp of up to eighteen digits always parses. */
  lemma ShortTimestampParses(s: string)
    requires IsDigits(s) && |s| <= 18
    ensures ParseInt64(s) == Some(DecimalValue(s))
  {
    DecimalBound(s);
    Pow10Monotone(|s|, 18);
    assert Pow10(1) == 10;
    assert Pow10(2) == 100;
    assert Pow10(3) == 1000;
    assert Pow10(4) == 10000;
    assert Pow10(5) == 100000;
    assert Pow10(6) == 1000000;
    assert Pow10(7) == 10000000;
    assert Pow10(8) == 100000000;
    assert Pow10(9) == 1000000000;
    assert Pow10(10) == 10000000000;
    assert Pow10(11) == 100000000000;
    assert Pow10(12) == 1000000000000;
    assert Pow10(13) == 10000000000000;
    assert Pow10(14) == 100000000000000;
    assert Pow10(15) == 1000000000000000;
    assert Pow10(16) == 10000000000000000;
    assert Pow10(17) == 100000000000000000;
    assert Pow10(18) == 1000000000000000000;
  }

  lemma {:induction false} Pow10Monotone(a: nat, b: nat)
    requires a <= b
    ensures Pow10(a) <= Pow10(b)
  {
    if a < b {
      Pow10Monotone(a, b - 1);
    }
  }

  // ----- the coloured parts -----

  /** The capture groups of `<(a?)(:name:)([0-9]+)>`. */
  datatype EmojiGroups = EmojiGroups(animated: string, name: string, id: string)

  /** A guild member as the mention lookup returns it. */
  datatype Member = Member(nick: string, username: string)

  /** A guild role. */
  datatype Role = Role(id: string, name: string, color: int)

  /** What the parser reads from outside: the Discord client's lookups, the submatches
      of the per-token expressions, the combined expression's matches and pieces, and
      `time.Unix(v, 0).UTC().Format(time.UnixDate)`. */
  datatype Environment = Environment(
    channelName: string -> Option<string>,
    member: (string, string) -> Option<Member>,
    userColor: (string, string) -> int,
    guildRoles: string -> Option<seq<Role>>,
    emojiSplit: string -> Option<EmojiGroups>,
    channelSplit: string -> Option<string>,
    mentionSplit: string -> Option<string>,
    roleSplit: string -> Option<string>,
    timeSplit: string -> Option<string>,
    findAll: string -> seq<Match>,
    split: string -> seq<string>,
    formatUnixDate: int -> string)

  /** The fields of a `discordgo.Message` the parser reads. */
  datatype DgMessage = DgMessage(guildId: string, channelId: string, content: string, attachments: seq<string>)

  // RegexIndex values: the alternatives of the combined expression, in order.
  const EmojiRegex: int := 0
  const ChannelRegex: int := 1
  const MentionRegex: int := 2
  const RoleRegex: int := 3
  const Everyone: int := 4
  const Here: int := 5
  const Time: int := 6

  const White: Option<Format> := Some(Format("#ffffff"))

  const EmojiCdn: string := "https://cdn.discordapp.com/emojis/"

  /** `getEmojiInfo`: a static emoji's image is `<id>.png`, an animated one's `<id>.gif?v=1`;
      the alternative text is the `:name:` group; no match gives the empty emoji. */
  function GetEmojiInfo(emojiSplit: string -> Option<EmojiGroups>, emojiStr: string): (e: Emoji)
    ensures emojiSplit(emojiStr).None? ==> e == Emoji("", "")
    ensures emojiSplit(emojiStr).Some? && emojiSplit(emojiStr).value.animated == "" ==>
              e == Emoji(EmojiCdn + emojiSplit(emojiStr).value.id + ".png", emojiSplit(emojiStr).value.name)
    ensures emojiSplit(emojiStr).Some? && emojiSplit(emojiStr).value.animated != "" ==>
              e == Emoji(EmojiCdn + emojiSplit(emojiStr).value.id + ".gif?v=1", emojiSplit(emojiStr).value.name)
  {
    var items := emojiSplit(emojiStr);
    if items.None? then Emoji("", "")
    else
      var id := items.value.id;
      if items.value.animated == "" then Emoji(EmojiCdn + id + ".png", items.value.name)
      else Emoji(EmojiCdn + id + ".gif?v=1", items.value.name)
  }

  /** `getTimeStamp`: the date of the token's Unix time; empty when the token does not
      match or its number does not fit in 64 bits. */
  function GetTimeStamp(timeSplit: string -> Option<string>, formatUnixDate: int -> string, timeStr: string): (r: string)
    ensures timeSplit(timeStr).None? ==> r == ""
    ensures timeSplit(timeStr).Some? && ParseInt64(timeSplit(timeStr).value).None? ==> r == ""
    ensures timeSplit(timeStr).Some? && ParseInt64(timeSplit(timeStr).value).Some? ==>
              r == formatUnixDate(ParseInt64(timeSplit(timeStr).value).value)
  {
    var items := timeSplit(timeStr);
    if items.None? then ""
    else
      var timeStampInt := ParseInt64(items.value);
      if timeStampInt.None? then "" else formatUnixDate(timeStampInt.value)
  }

  /** `getIdWithRegex`: the id group of a match; empty when there is no match. */
  function GetIdWithRegex(content: string, r: string -> Option<string>): (id: string)
    ensures r(content).None? ==> id == ""
    ensures r(content).Some? ==> id == r(content).value
  {
    var items := r(content);
    if items.None? then "" else items.value
  }

  /** `slices.IndexFunc(roles, role.ID == roleId)`. */
  function RoleIndex(roles: seq<Role>, roleId: string): (idx: int)
    ensures -1 <= idx < |roles|
    ensures idx >= 0 ==> roles[idx].id == roleId && forall k :: 0 <= k < idx ==> roles[k].id != roleId
    ensures idx == -1 ==> forall k :: 0 <= k < |roles| ==> roles[k].id != roleId
  {
    if roles == [] then -1
    else if roles[0].id == roleId then 0
    else
      var rest := RoleIndex(roles[1..], roleId);
      if rest == -1 then -1 else rest + 1
  }

  /** `parsingColoredContent`: the part a token of the given alternative becomes. */
  function ColoredPart(env: Environment, message: DgMessage, content: string, matchedRegex: int): (p: MessagePart)
    ensures matchedRegex == EmojiRegex ==> p == MessagePart("", Some(GetEmojiInfo(env.emojiSplit, content)), None)
    ensures matchedRegex in {ChannelRegex, Everyone, Here, Time} ==> p.format == White && p.emoji.None?
    ensures matchedRegex in {MentionRegex, RoleRegex} ==> p.format.Some? && p.emoji.None?
    ensures matchedRegex in {Everyone, Here} ==> p.content == content
    ensures matchedRegex == Time ==> p.content == GetTimeStamp(env.timeSplit, env.formatUnixDate, content)
    ensures !(0 <= matchedRegex <= Time) ==> p == EmptyPart
  {
    if matchedRegex == EmojiRegex then
      MessagePart("", Some(GetEmojiInfo(env.emojiSplit, content)), None)
    else if matchedRegex == ChannelRegex then
      var channelId := GetIdWithRegex(content, env.channelSplit);
      var channel := env.channelName(channelId);
      if channel.None? then MessagePart("#unknown-channel", None, White)
      else MessagePart("#" + channel.value, None, White)
    else if matchedRegex == MentionRegex then
      var userId := GetIdWithRegex(content, env.mentionSplit);
      var member := env.member(message.guildId, userId);
      if member.None? then MessagePart("@unknown-user", None, White)
      else
        var color := env.userColor(userId, message.channelId);
        var username := if member.value.nick == "" then member.value.username else member.value.nick;
        MessagePart("@" + username, None, Some(Format(ColorHex(color))))
    else if matchedRegex == RoleRegex then
      var roleId := GetIdWithRegex(content, env.roleSplit);
      var guildRoles := env.guildRoles(message.guildId);
      if guildRoles.None? then MessagePart("@unknown-role", None, White)
      else
        var idx := RoleIndex(guildRoles.value, roleId);
        if idx == -1 then MessagePart("@unknown-role", None, White)
        else MessagePart("@" + guildRoles.value[idx].name, None, Some(Format(ColorHex(guildRoles.value[idx].color))))
    else if matchedRegex == Everyone || matchedRegex == Here then
      MessagePart(content, None, White)
    else if matchedRegex == Time then
      MessagePart(GetTimeStamp(env.timeSplit, env.formatUnixDate, content), None, White)
    else EmptyPart
  }

  /** A mention of a member without a nickname shows their user name; with one, the nickname. */
  lemma MentionShowsNickname(env: Environment, message: DgMessage, content: string)
    requires env.member(message.guildId, GetIdWithRegex(content, env.mentionSplit)).Some?
    ensures var m := env.member(message.guildId, GetIdWithRegex(content, env.mentionSplit)).value;
            ColoredPart(env, message, content, MentionRegex).content == "@" + (if m.nick == "" then m.username else m.nick)
  {
  }

  /** The coloured part of one match. */
  function MatchPart(env: Environment, message: DgMessage, m: Match): MessagePart
  {
    ColoredPart(env, message, m.text, FirstNonEmpty(m.groups))
  }

  /** A plain part: text only. */
  function TextPart(s: string): MessagePart
  {
    MessagePart(s, None, None)
  }

  /** Plain parts are the ones with neither emoji nor format and some text. */
  predicate IsText(p: MessagePart)
  {
    p.emoji.None? && p.format.None? && p.content != ""
  }

  /** `ParseMessage`. */
  method ParseMessage(env: Environment, message: DgMessage) returns (messageParts: seq<MessagePart>)
    ensures var contents := env.split(message.content);
            var delimiters := env.findAll(message.content);
            messageParts == Assembled(contents, delimiters, m => MatchPart(env, message, m), TextPart, |contents|)
  {
    var msgContent := message.content;
    var delimiters := env.findAll(msgContent);
    var contents := env.split(msgContent);
    messageParts := AssembleParts(contents, delimiters, m => MatchPart(env, message, m), TextPart);
  }

  /** The parsed message holds the non-empty pieces of its text as plain parts, in order,
      and one coloured part per used token, in order. */
  lemma ParsedMessageParts(env: Environment, message: DgMessage)
    ensures var contents := env.split(message.content);
            var delimiters := env.findAll(message.content);
            var parts := Assembled(contents, delimiters, m => MatchPart(env, message, m), TextPart, |contents|);
            Keep(parts, IsText) == PlainsOf(contents, TextPart) &&
            Drop(parts, IsText) ==
              ColoredsOf(delimiters[..UsedMatches(|contents|, delimiters)], m => MatchPart(env, message, m))
  {
    var contents := env.split(message.content);
    var delimiters := env.findAll(message.content);
    forall m ensures !IsText(MatchPart(env, message, m)) {
    }
    AssembledPlains(contents, delimiters, m => MatchPart(env, message, m), TextPart, IsText, |contents|);
    AssembledColoreds(contents, delimiters, m => MatchPart(env, message, m), TextPart, IsText, |contents|);
    assert contents[..|contents|] == contents;
  }

  /** `ParseAttachment`: the file name of each attachment, in order. */
  method ParseAttachment(message: DgMessage) returns (attachments: seq<string>)
    ensures |attachments| == |message.attachments|
    ensures forall i :: 0 <= i < |attachments| ==> attachments[i] == message.attachments[i]
  {
    attachments := [];
    for i := 0 to |message.attachments|
      invariant attachments == message.attachments[..i]
    {
      attachments := attachments + [message.attachments[i]];
    }
  }
}
