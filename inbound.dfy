/**
 * Inbound gateway events: which event types become group or private
 * messages, and `makeMessage`, which turns the gateway's message payload into
 * the bot framework's message record with its `text`/`at` pieces and the
 * display string `raw_message`.
 */
module Inbound {
  import opened Wrappers
  import opened Strings
  import opened Objects
  import opened GroupIds
  import opened Mentions

  /** The kind of a framework message, `message_type`. */
  datatype MessageType = Private | Group

  /** The `message` switch on `eventType`: creations are handled, deletions and anything else are ignored. */
  function Dispatch(eventType: string): (r: Option<MessageType>)
    ensures r == Some(Group) <==> eventType == "MESSAGE_CREATE" || eventType == "AT_MESSAGE_CREATE"
    ensures r == Some(Private) <==> eventType == "DIRECT_MESSAGE_CREATE"
  {
    match eventType
    case "MESSAGE_CREATE" => Some(Group)
    case "MESSAGE_DELETE" => None
    case "DIRECT_MESSAGE_CREATE" => Some(Private)
    case "DIRECT_MESSAGE_DELETE" => None
    case "AT_MESSAGE_CREATE" => Some(Group)
    case "PUBLIC_MESSAGE_DELETE" => None
    case _ => None
  }

  /** The name `message_type` takes in the events emitted for it. */
  function TypeName(t: MessageType): string {
    match t
    case Private => "private"
    case Group => "group"
  }

  /** The gateway's `msg` payload; `author` keeps all its (string) fields. */
  datatype RawMessage = RawMessage(
    id: Option<string>,
    author: Fields,
    guildId: Option<string>,
    channelId: Option<string>,
    content: Option<string>)

  /** `sender`: the author's id, user name and avatar. */
  datatype Sender = Sender(userId: Option<string>, nickname: Option<string>, avatar: Option<string>)

  /** The framework's message record as `makeMessage` leaves it. */
  datatype Message = Message(
    selfId: string,
    postType: string,
    userId: Option<string>,
    author: Fields,
    sender: Sender,
    guildId: Option<string>,
    channelId: Option<string>,
    groupId: string,
    messageId: Option<string>,
    segments: seq<Piece>,
    rawMessage: string)

  /** The content the scan runs over: none when `content` is not truthy. */
  function ScannedText(raw: RawMessage): string {
    if Truthy(raw.content) then raw.content.value else ""
  }

  /**
   * The record `makeMessage` builds from `raw`, stated without its loop: the
   * pieces are the scan of the content and `raw_message` is their display.
   */
  function MessageOf(selfId: string, raw: RawMessage): Message {
    var segments := Scan(ScannedText(raw));
    Message(selfId, "message", Get(raw.author, "id"), raw.author,
            Sender(Get(raw.author, "id"), Get(raw.author, "username"), Get(raw.author, "avatar")),
            raw.guildId, raw.channelId, GroupId(raw.guildId, raw.channelId), raw.id,
            segments, Display(segments))
  }

  /**
   * The content part of `makeMessage`: with matches, each turn cuts the rest
   * of the content at its first match (`split`, `shift`, `join`), keeps the
   * text before it unless empty, and turns the match into a mention of the
   * id it captures; the text after the last match closes the list. Without
   * matches the whole content is one text piece.
   */
  method CutMentions(content: string) returns (segments: seq<Piece>, rawMessage: string)
    requires content != ""
    ensures segments == Scan(content)
    ensures rawMessage == Display(segments)
  {
    var matches := Matches(content);
    if matches != [] {
      var rest;
      segments, rawMessage, rest := CutEachMatch(content, matches);
      ScanNoMatch(rest);
      if rest != "" {
        DisplayAppend(segments, [PlainText(rest)]);
        segments := segments + [PlainText(rest)];
        rawMessage := rawMessage + rest;
      }
    } else {
      ScanNoMatch(content);
      segments := [PlainText(content)];
      rawMessage := content;
    }
  }

  /** The loop over the matches, up to the text after the last one. */
  method CutEachMatch(content: string, matches: seq<string>) returns (segments: seq<Piece>, rawMessage: string, rest: string)
    requires matches == Matches(content)
    ensures Scan(content) == segments + Scan(rest)
    ensures Matches(rest) == []
    ensures rawMessage == Display(segments)
  {
    segments, rawMessage := [], "";
    rest := content;
    var i := 0;
    while i < |matches|
      invariant 0 <= i <= |matches|
      invariant matches[i..] == Matches(rest)
      invariant Scan(content) == segments + Scan(rest)
      invariant rawMessage == Display(segments)
    {
      Turn(content, segments, rawMessage, rest);
      segments, rawMessage, rest := CutTurn(segments, rawMessage, rest, matches[i]);
      assert matches[i + 1..] == matches[i..][1..];
      i := i + 1;
    }
  }

  /** One turn: the text before the first match, unless empty, then the mention; the rest is what follows. */
  method CutTurn(segments0: seq<Piece>, rawMessage0: string, rest0: string, m: string)
    returns (segments: seq<Piece>, rawMessage: string, rest: string)
    ensures var cut := CutAtFirst(rest0, m);
            var qq := ReplaceMention(m);
            && segments == segments0 + Lead(cut.0) + [Mention(qq)]
            && rawMessage == rawMessage0 + cut.0 + MentionTag(qq)
            && rest == cut.1
  {
    var cut := CutAtFirst(rest0, m);
    var prev := cut.0;
    segments, rawMessage := segments0, rawMessage0;
    if prev != "" {
      segments := segments + [PlainText(prev)];
      rawMessage := rawMessage + prev;
    } else {
      assert segments0 + Lead(prev) == segments0 && rawMessage0 + prev == rawMessage0;
    }
    rest := cut.1;
    var qq := ReplaceMention(m);
    segments := segments + [Mention(qq)];
    rawMessage := rawMessage + MentionTag(qq);
  }

  /** One turn of the loop keeps the loop's invariant. */
  lemma {:induction false} Turn(content: string, segments: seq<Piece>, rawMessage: string, rest: string)
    requires Matches(rest) != []
    requires Scan(content) == segments + Scan(rest)
    requires rawMessage == Display(segments)
    ensures var cut := CutAtFirst(rest, Matches(rest)[0]);
            var qq := ReplaceMention(Matches(rest)[0]);
            && Matches(cut.1) == Matches(rest)[1..]
            && Scan(content) == segments + Lead(cut.0) + [Mention(qq)] + Scan(cut.1)
            && rawMessage + cut.0 + MentionTag(qq) == Display(segments + Lead(cut.0) + [Mention(qq)])
  {
    var cut := CutAtFirst(rest, Matches(rest)[0]);
    var qq := ReplaceMention(Matches(rest)[0]);
    TurnScan(content, segments, rest);
    TurnShown(segments, rawMessage, cut.0, qq);
  }

  lemma {:induction false} TurnScan(content: string, segments: seq<Piece>, rest: string)
    requires Matches(rest) != []
    requires Scan(content) == segments + Scan(rest)
    ensures var cut := CutAtFirst(rest, Matches(rest)[0]);
            var qq := ReplaceMention(Matches(rest)[0]);
            && Matches(cut.1) == Matches(rest)[1..]
            && Scan(content) == segments + Lead(cut.0) + [Mention(qq)] + Scan(cut.1)
  {
    var cut := CutAtFirst(rest, Matches(rest)[0]);
    var qq := ReplaceMention(Matches(rest)[0]);
    CutStep(rest);
    Assoc4(segments, Lead(cut.0), [Mention(qq)], Scan(cut.1));
  }

  lemma {:induction false} Assoc4(a: seq<Piece>, b: seq<Piece>, c: seq<Piece>, d: seq<Piece>)
    ensures a + (b + c + d) == a + b + c + d
  {
  }

  lemma {:induction false} TurnShown(segments: seq<Piece>, rawMessage: string, prev: string, qq: string)
    requires rawMessage == Display(segments)
    ensures rawMessage + prev + MentionTag(qq) == Display(segments + Lead(prev) + [Mention(qq)])
  {
    var added := Lead(prev) + [Mention(qq)];
    TurnDisplay(prev, qq);
    DisplayAppend(segments, added);
    ConcatAssoc(segments, Lead(prev), [Mention(qq)]);
    ConcatAssoc(rawMessage, prev, MentionTag(qq));
  }

  /** What one turn of the loop adds to the pieces and to the display string. */
  lemma {:induction false} TurnDisplay(prev: string, qq: string)
    ensures Display(Lead(prev) + [Mention(qq)]) == prev + MentionTag(qq)
  {
    var m := Mention(qq);
    assert Display([m]) == Shown(m) + Display([]);
    DisplayAppend(Lead(prev), [m]);
    if prev != "" {
      assert Display([PlainText(prev)]) == prev + Display([]);
    }
  }

  /**
   * `makeMessage`: copies the payload's fields, takes the sender from the
   * author, builds the group id and cuts the content into pieces.
   */
  method MakeMessage(selfId: string, raw: RawMessage) returns (msg: Message)
    ensures msg.selfId == selfId && msg.postType == "message"
    ensures msg.userId == Get(raw.author, "id")
    ensures msg.sender == Sender(Get(raw.author, "id"), Get(raw.author, "username"), Get(raw.author, "avatar"))
    ensures msg.author == raw.author && msg.guildId == raw.guildId && msg.channelId == raw.channelId
    ensures msg.groupId == GroupId(raw.guildId, raw.channelId)
    ensures msg.messageId == raw.id
    ensures msg.segments == Scan(ScannedText(raw))
    ensures Wire(msg.segments) == ScannedText(raw)
    ensures forall k :: 0 <= k < |msg.segments| && msg.segments[k].PlainText? ==> msg.segments[k].text != ""
    ensures msg.rawMessage == Display(msg.segments)
    ensures !Truthy(raw.content) ==> msg.segments == [] && msg.rawMessage == ""
    ensures msg == MessageOf(selfId, raw)
  {
    var userId := Get(raw.author, "id");
    var sender := Sender(userId, Get(raw.author, "username"), Get(raw.author, "avatar"));
    var segments: seq<Piece> := [];
    var rawMessage := "";
    if Truthy(raw.content) {
      segments, rawMessage := CutMentions(raw.content.value);
    }
    ScanRoundTrip(ScannedText(raw));
    msg := Message(selfId, "message", userId, raw.author, sender, raw.guildId, raw.channelId,
                   GroupId(raw.guildId, raw.channelId), raw.id, segments, rawMessage);
  }
}
