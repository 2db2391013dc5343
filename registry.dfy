/**
 * What a connected account (`Bot[id]`) remembers and hands out: the friend
 * list `fl`, keyed by user id and upserted on every inbound message; the
 * group list `gl`, keyed by compound group id; the data fields of the
 * friend, member and group records `pickFriend`, `pickMember` and
 * `pickGroup` build; the info lookups; and the flattening of guilds and
 * their channels into groups.
 */
module Registry {
  import opened Wrappers
  import opened Strings
  import opened Objects
  import opened GroupIds
  import opened Inbound

  /** `Bot[id].fl`: user id (possibly `undefined`) to the fields last recorded for that user. */
  type FriendList = map<Option<string>, Fields>

  /** `Bot[id].gl`: group id to the group's fields. */
  type GroupList = map<string, Fields>

  /** The stored entry spread into a new object: its fields, or none at all when there is no entry. */
  function Lookup<K>(m: map<K, Fields>, key: K): Fields {
    if key in m then m[key] else map[]
  }

  /** Two field sets that agree on every key are the same. */
  lemma {:induction false} FieldsExt(a: Fields, b: Fields)
    requires forall k :: Get(a, k) == Get(b, k)
    ensures a == b
  {
    assert a.Keys == b.Keys by {
      forall k | k in a.Keys ensures k in b.Keys { assert Get(a, k).Some?; }
      forall k | k in b.Keys ensures k in a.Keys { assert Get(b, k).Some?; }
    }
    forall k | k in a.Keys ensures a[k] == b[k] { assert Get(a, k) == Get(b, k); }
  }

  /** The keys an upsert sets from the message itself, over and above the author's fields. */
  predicate Recorded(t: MessageType, k: string) {
    || k == "user_id" || k == "nickname" || k == "avatar"
    || (match t
        case Group => k == "source_guild_id" || k == "source_channel_id"
        case Private => k == "guild_id" || k == "channel_id")
  }

  /**
   * The new friend entry: the stored one, overlaid by the author's fields,
   * then by the sender's, then by the location. A group message records where the user was seen as
   * `source_guild_id`/`source_channel_id`; a direct message records the
   * direct-message session as `guild_id`/`channel_id`.
   */
  function FriendEntry(previous: Fields, t: MessageType, msg: Message): (r: Fields)
    ensures Get(r, "user_id") == msg.sender.userId
    ensures Get(r, "nickname") == msg.sender.nickname
    ensures Get(r, "avatar") == msg.sender.avatar
    ensures t == Group ==> Get(r, "source_guild_id") == msg.guildId && Get(r, "source_channel_id") == msg.channelId
    ensures t == Private ==> Get(r, "guild_id") == msg.guildId && Get(r, "channel_id") == msg.channelId
    ensures forall k :: !Recorded(t, k) ==>
              Get(r, k) == (if k in msg.author then Some(msg.author[k]) else Get(previous, k))
  {
    var withSender := WithSender(Overlay(previous, msg.author), msg.sender);
    match t
    case Group => WithLocation(withSender, "source_guild_id", "source_channel_id", msg.guildId, msg.channelId)
    case Private => WithLocation(withSender, "guild_id", "channel_id", msg.guildId, msg.channelId)
  }

  /** The base overlaid by the sender's id, nickname and avatar. */
  function WithSender(base: Fields, s: Sender): (r: Fields)
    ensures Get(r, "user_id") == s.userId && Get(r, "nickname") == s.nickname && Get(r, "avatar") == s.avatar
    ensures forall k :: k != "user_id" && k != "nickname" && k != "avatar" ==> Get(r, k) == Get(base, k)
  {
    Assign(Assign(Assign(base, "user_id", s.userId), "nickname", s.nickname), "avatar", s.avatar)
  }

  /** The base with the two location keys set (dropped when undefined). */
  function WithLocation(base: Fields, guildKey: string, channelKey: string,
                        guild: Option<string>, channel: Option<string>): (r: Fields)
    requires guildKey != channelKey
    ensures Get(r, guildKey) == guild && Get(r, channelKey) == channel
    ensures forall k :: k != guildKey && k != channelKey ==> Get(r, k) == Get(base, k)
  {
    Assign(Assign(base, guildKey, guild), channelKey, channel)
  }

  /** The friend list after the upsert for `msg`. */
  function Registered(fl: FriendList, t: MessageType, msg: Message): FriendList {
    fl[msg.userId := FriendEntry(Lookup(fl, msg.userId), t, msg)]
  }

  /** The upsert touches the sender's entry only. */
  lemma {:induction false} RegisteredOthers(fl: FriendList, t: MessageType, msg: Message, key: Option<string>)
    requires key != msg.userId
    ensures key in Registered(fl, t, msg) <==> key in fl
    ensures Lookup(Registered(fl, t, msg), key) == Lookup(fl, key)
  {
  }

  /** Upserting the entry again for the same message changes nothing. */
  lemma {:induction false} FriendEntryIdempotent(previous: Fields, t: MessageType, msg: Message)
    ensures FriendEntry(FriendEntry(previous, t, msg), t, msg) == FriendEntry(previous, t, msg)
  {
    var once := FriendEntry(previous, t, msg);
    var twice := FriendEntry(once, t, msg);
    forall k ensures Get(twice, k) == Get(once, k) {
      FriendEntryStable(previous, t, msg, k);
    }
    FieldsExt(twice, once);
  }

  /** Each field of the entry is the same after a second upsert. */
  lemma {:induction false} FriendEntryStable(previous: Fields, t: MessageType, msg: Message, k: string)
    ensures Get(FriendEntry(FriendEntry(previous, t, msg), t, msg), k) == Get(FriendEntry(previous, t, msg), k)
  {
    if !Recorded(t, k) {
      var once := FriendEntry(previous, t, msg);
      assert Get(FriendEntry(once, t, msg), k) == (if k in msg.author then Some(msg.author[k]) else Get(once, k));
    } else if k == "user_id" || k == "nickname" || k == "avatar" {
    } else {
      match t
      case Group =>
      case Private =>
    }
  }

  /** Registering the same message twice leaves the friend list as registering it once. */
  lemma {:induction false} RegisteredIdempotent(fl: FriendList, t: MessageType, msg: Message)
    ensures Registered(Registered(fl, t, msg), t, msg) == Registered(fl, t, msg)
  {
    FriendEntryIdempotent(Lookup(fl, msg.userId), t, msg);
  }

  // ---- group records ----

  /** `${guild.name}-${channel.name}`. */
  function GroupName(guild: Fields, channel: Fields): string {
    Interpolate(Get(guild, "name")) + "-" + Interpolate(Get(channel, "name"))
  }

  /** One channel of a guild as a group: the guild overlaid by the channel, plus the compound id and name. */
  function GroupEntry(guild: Fields, channel: Fields): (r: Fields)
    ensures Get(r, "group_id") == Some(GroupId(Get(guild, "id"), Get(channel, "id")))
    ensures Get(r, "group_name") == Some(GroupName(guild, channel))
    ensures forall k :: k != "group_id" && k != "group_name" ==>
              Get(r, k) == (if k in channel then Some(channel[k]) else Get(guild, k))
  {
    ((guild + channel)["group_id" := GroupId(Get(guild, "id"), Get(channel, "id"))])["group_name" := GroupName(guild, channel)]
  }

  /** The group id of an entry built by `GroupEntry`. */
  function EntryId(e: Fields): string {
    Get(e, "group_id").GetOr("undefined")
  }

  /** The groups of one guild, one per channel, in the listing's order. */
  function GuildGroups(guild: Fields, channels: seq<Fields>): (r: seq<Fields>)
    ensures |r| == |channels|
    ensures forall k :: 0 <= k < |r| ==> r[k] == GroupEntry(guild, channels[k])
  {
    seq(|channels|, k requires 0 <= k < |channels| => GroupEntry(guild, channels[k]))
  }

  /**
   * `getGroupArray`: every guild's channels flattened in order. `channels`
   * is the channel listing of a guild by id; `None` is a failed listing,
   * whose guild contributes nothing.
   */
  function GroupArray(guilds: seq<Fields>, channels: Option<string> -> Option<seq<Fields>>): seq<Fields>
    decreases |guilds|
  {
    if guilds == [] then []
    else
      var last := guilds[|guilds| - 1];
      GroupArray(guilds[..|guilds| - 1], channels) + Contributed(last, channels)
  }

  /** `c` is a channel listed for `guild`. */
  predicate Listed(guild: Fields, channels: Option<string> -> Option<seq<Fields>>, c: Fields) {
    channels(Get(guild, "id")).Some? && c in channels(Get(guild, "id")).value
  }

  /** The groups one guild contributes to the array. */
  function Contributed(guild: Fields, channels: Option<string> -> Option<seq<Fields>>): seq<Fields> {
    match channels(Get(guild, "id"))
    case None => []
    case Some(cs) => GuildGroups(guild, cs)
  }

  /** `e` is the group of some listed channel of `guild`. */
  ghost predicate FromGuild(guild: Fields, channels: Option<string> -> Option<seq<Fields>>, e: Fields) {
    exists c :: Listed(guild, channels, c) && e == GroupEntry(guild, c)
  }

  lemma {:induction false} ContributedMembers(guild: Fields, channels: Option<string> -> Option<seq<Fields>>, e: Fields)
    ensures e in Contributed(guild, channels) <==> FromGuild(guild, channels, e)
  {
    match channels(Get(guild, "id"))
    case None =>
    case Some(cs) =>
      var own := GuildGroups(guild, cs);
      if e in own {
        var k :| 0 <= k < |own| && own[k] == e;
        assert Listed(guild, channels, cs[k]);
      }
      if FromGuild(guild, channels, e) {
        var c :| Listed(guild, channels, c) && e == GroupEntry(guild, c);
        var k :| 0 <= k < |cs| && cs[k] == c;
        assert own[k] == e;
      }
  }

  /** `e` is the group of some listed channel of one of `guilds`. */
  ghost predicate FromGuilds(guilds: seq<Fields>, channels: Option<string> -> Option<seq<Fields>>, e: Fields) {
    exists i, c :: 0 <= i < |guilds| && Listed(guilds[i], channels, c) && e == GroupEntry(guilds[i], c)
  }

  lemma {:induction false} FromGuildsLast(guilds: seq<Fields>, channels: Option<string> -> Option<seq<Fields>>, e: Fields)
    requires guilds != []
    ensures FromGuilds(guilds, channels, e) <==>
            FromGuilds(guilds[..|guilds| - 1], channels, e) || FromGuild(guilds[|guilds| - 1], channels, e)
  {
    var n := |guilds| - 1;
    var front := guilds[..n];
    if FromGuilds(guilds, channels, e) {
      var i, c :| 0 <= i < |guilds| && Listed(guilds[i], channels, c) && e == GroupEntry(guilds[i], c);
      if i < n {
        assert front[i] == guilds[i];
      }
    }
    if FromGuilds(front, channels, e) {
      var i, c :| 0 <= i < |front| && Listed(front[i], channels, c) && e == GroupEntry(front[i], c);
      assert front[i] == guilds[i];
    }
  }

  /** Every group comes from a listed channel of one of the guilds, and every listed channel gives a group. */
  lemma {:induction false} GroupArrayMembers(guilds: seq<Fields>, channels: Option<string> -> Option<seq<Fields>>, e: Fields)
    ensures e in GroupArray(guilds, channels) <==> FromGuilds(guilds, channels, e)
    decreases |guilds|
  {
    if guilds != [] {
      var n := |guilds| - 1;
      GroupArrayMembers(guilds[..n], channels, e);
      ContributedMembers(guilds[n], channels, e);
      FromGuildsLast(guilds, channels, e);
    }
  }

  /** Every group built by `getGroupArray` has its compound id. */
  lemma {:induction false} GroupArrayIds(guilds: seq<Fields>, channels: Option<string> -> Option<seq<Fields>>, k: nat)
    requires k < |GroupArray(guilds, channels)|
    ensures exists i, c :: 0 <= i < |guilds| && Listed(guilds[i], channels, c) &&
                           EntryId(GroupArray(guilds, channels)[k]) == GroupId(Get(guilds[i], "id"), Get(c, "id"))
  {
    assert GroupArray(guilds, channels)[k] in GroupArray(guilds, channels);
    var e := GroupArray(guilds, channels)[k];
    GroupArrayMembers(guilds, channels, e);
    var i, c :| 0 <= i < |guilds| && Listed(guilds[i], channels, c) && e == GroupEntry(guilds[i], c);
  }

  /** `getGroupArray`: the nested loops over guilds and their channels. */
  method GetGroupArray(guilds: seq<Fields>, channels: Option<string> -> Option<seq<Fields>>) returns (groups: seq<Fields>)
    ensures groups == GroupArray(guilds, channels)
  {
    groups := [];
    var i := 0;
    while i < |guilds|
      invariant 0 <= i <= |guilds|
      invariant groups == GroupArray(guilds[..i], channels)
    {
      var guild := guilds[i];
      assert guilds[..i + 1][..i] == guilds[..i];
      match channels(Get(guild, "id")) {
        case None =>
        case Some(cs) =>
          var entries := GuildEntries(guild, cs);
          groups := groups + entries;
      }
      i := i + 1;
    }
    assert guilds[..i] == guilds;
  }

  /** The inner loop of `getGroupArray`: one entry per channel of a guild, in order. */
  method GuildEntries(guild: Fields, cs: seq<Fields>) returns (entries: seq<Fields>)
    ensures entries == GuildGroups(guild, cs)
  {
    entries := [];
    var j := 0;
    while j < |cs|
      invariant 0 <= j <= |cs|
      invariant |entries| == j
      invariant forall k :: 0 <= k < j ==> entries[k] == GroupEntry(guild, cs[k])
    {
      entries := entries + [GroupEntry(guild, cs[j])];
      j := j + 1;
    }
  }

  /** `getGroupList`: the group ids, in the order of the array. */
  method GetGroupList(guilds: seq<Fields>, channels: Option<string> -> Option<seq<Fields>>) returns (ids: seq<string>)
    ensures |ids| == |GroupArray(guilds, channels)|
    ensures forall k :: 0 <= k < |ids| ==> ids[k] == EntryId(GroupArray(guilds, channels)[k])
  {
    var groups := GetGroupArray(guilds, channels);
    ids := ListIds(groups);
  }

  /** The loop of `getGroupList`: each record's group id, in order. */
  method ListIds(groups: seq<Fields>) returns (ids: seq<string>)
    ensures |ids| == |groups|
    ensures forall k :: 0 <= k < |ids| ==> ids[k] == EntryId(groups[k])
  {
    ids := [];
    var i := 0;
    while i < |groups|
      invariant 0 <= i <= |groups|
      invariant |ids| == i
      invariant forall k :: 0 <= k < i ==> ids[k] == EntryId(groups[k])
    {
      ids := ids + [EntryId(groups[i])];
      i := i + 1;
    }
  }

  /** The map `getGroupMap` fills: each record stored under its group id, later records replacing earlier ones. */
  function GroupMap(groups: seq<Fields>): GroupList
    decreases |groups|
  {
    if groups == [] then map[]
    else GroupMap(groups[..|groups| - 1])[EntryId(groups[|groups| - 1]) := groups[|groups| - 1]]
  }

  /** The map holds exactly the ids of the array, each bound to the LAST entry that has it. */
  lemma {:induction false} GroupMapLastWins(groups: seq<Fields>, id: string)
    ensures id in GroupMap(groups) <==> exists k :: 0 <= k < |groups| && EntryId(groups[k]) == id
    ensures id in GroupMap(groups) ==>
              exists k :: 0 <= k < |groups| && EntryId(groups[k]) == id && GroupMap(groups)[id] == groups[k] &&
                          forall j :: k < j < |groups| ==> EntryId(groups[j]) != id
    decreases |groups|
  {
    if groups != [] {
      var n := |groups| - 1;
      var front := groups[..n];
      GroupMapLastWins(front, id);
      assert forall k :: 0 <= k < n ==> front[k] == groups[k];
      if EntryId(groups[n]) != id && id in GroupMap(groups) {
        var k :| 0 <= k < n && EntryId(front[k]) == id && GroupMap(front)[id] == front[k] &&
                 forall j :: k < j < n ==> EntryId(front[j]) != id;
        assert GroupMap(groups)[id] == groups[k];
      }
    }
  }

  /** `getGroupMap`: the group list keyed by group id. */
  method GetGroupMap(guilds: seq<Fields>, channels: Option<string> -> Option<seq<Fields>>) returns (gl: GroupList)
    ensures gl == GroupMap(GroupArray(guilds, channels))
  {
    var groups := GetGroupArray(guilds, channels);
    gl := MapById(groups);
  }

  /** The loop of `getGroupMap`. */
  method MapById(groups: seq<Fields>) returns (gl: GroupList)
    ensures gl == GroupMap(groups)
  {
    gl := map[];
    var i := 0;
    while i < |groups|
      invariant 0 <= i <= |groups|
      invariant gl == GroupMap(groups[..i])
    {
      assert groups[..i + 1][..i] == groups[..i];
      gl := gl[EntryId(groups[i]) := groups[i]];
      i := i + 1;
    }
    assert groups[..i] == groups;
  }

  // ---- info lookups ----

  /**
   * `getMemberInfo`: the data overlaid with the guild-member record `info`
   * (its string fields) and the user object inside it, `user`; the user id,
   * nickname and avatar come from the member record.
   */
  function MemberInfo(data: Fields, info: Fields, user: Fields): (r: Fields)
    ensures Get(r, "user_id") == Get(user, "id")
    ensures Get(r, "nickname") == Get(info, "nick")
    ensures Get(r, "avatar") == Get(user, "avatar")
    ensures forall k :: k != "user_id" && k != "nickname" && k != "avatar" ==>
              Get(r, k) == (if k in info then Some(info[k]) else Get(data, k))
  {
    Assign(Assign(Assign(data + info, "user_id", Get(user, "id")), "nickname", Get(info, "nick")),
           "avatar", Get(user, "avatar"))
  }

  /** `getFriendInfo`: member info when the friend was seen in a guild, the data itself otherwise. */
  function FriendInfo(data: Fields, info: Fields, user: Fields): (r: Fields)
    ensures !Truthy(Get(data, "source_guild_id")) ==> r == data
    ensures Truthy(Get(data, "source_guild_id")) ==>
              Get(r, "user_id") == Get(user, "id") && Get(r, "nickname") == Get(info, "nick") &&
              Get(r, "avatar") == Get(user, "avatar")
    ensures Truthy(Get(data, "source_guild_id")) ==>
              forall k :: k != "user_id" && k != "nickname" && k != "avatar" ==>
                Get(r, k) == (if k in info then Some(info[k]) else Get(data, k))
  {
    if Truthy(Get(data, "source_guild_id")) then MemberInfo(data, info, user) else data
  }

  /** `getGroupInfo`: the data overlaid with the guild and channel records and the compound id and name. */
  function GroupInfo(data: Fields, guild: Fields, channel: Fields): (r: Fields)
    ensures Get(r, "group_id") == Some(GroupId(Get(guild, "id"), Get(channel, "id")))
    ensures Get(r, "group_name") == Some(GroupName(guild, channel))
    ensures forall k :: k != "group_id" && k != "group_name" ==>
              Get(r, k) == (if k in channel then Some(channel[k]) else if k in guild then Some(guild[k]) else Get(data, k))
  {
    ((data + guild + channel)["group_id" := GroupId(Get(guild, "id"), Get(channel, "id"))])["group_name" := GroupName(guild, channel)]
  }

  // ---- the account ----

  /** `Bot[id]`: a connected account with its two registries. */
  class Account {
    const uin: string
    var nickname: Option<string>
    var avatar: Option<string>
    var fl: FriendList
    var gl: GroupList

    constructor(uin: string, info: Fields, gl: GroupList)
      ensures this.uin == uin
      ensures nickname == Get(info, "username") && avatar == Get(info, "avatar")
      ensures fl == map[] && this.gl == gl
    {
      this.uin := uin;
      nickname := Get(info, "username");
      avatar := Get(info, "avatar");
      fl := map[];
      this.gl := gl;
    }

    /** The data fields of `pickFriend(user_id)`: the stored entry, the account id and the user id. */
    function PickFriend(userId: string): (r: Fields)
      reads this
      ensures Get(r, "self_id") == Some(uin) && Get(r, "user_id") == Some(userId)
      ensures forall k :: k != "self_id" && k != "user_id" ==> Get(r, k) == Get(Lookup(fl, Some(userId)), k)
    {
      Assign(Assign(Lookup(fl, Some(userId)), "self_id", Some(uin)), "user_id", Some(userId))
    }

    /**
     * The data fields of `pickMember(group_id, user_id)`: the friend's fields
     * overlaid with the guild and channel ids split out of the group id as
     * `source_guild_id` and `source_channel_id` (absent when the id has no `-`).
     */
    function PickMember(groupId: string, userId: string): (r: Fields)
      reads this
      ensures Get(r, "source_guild_id") == Some(ParseGroupId(groupId).guildId)
      ensures Get(r, "source_channel_id") == ParseGroupId(groupId).channelId
      ensures Get(r, "self_id") == Some(uin) && Get(r, "user_id") == Some(userId)
      ensures forall k :: k !in {"self_id", "user_id", "source_guild_id", "source_channel_id"} ==>
                Get(r, k) == Get(Lookup(fl, Some(userId)), k)
    {
      var ref := ParseGroupId(groupId);
      var i := Assign(Assign(Assign(Assign(Lookup(fl, Some(userId)), "self_id", Some(uin)),
                                    "source_guild_id", Some(ref.guildId)), "source_channel_id", ref.channelId),
                      "user_id", Some(userId));
      var friend := PickFriend(userId);
      Assign(Assign(Assign(Assign(friend + i, "self_id", Some(uin)), "source_guild_id", Some(ref.guildId)),
                    "source_channel_id", ref.channelId), "user_id", Some(userId))
    }

    /** The data fields of `pickGroup(group_id)`: the stored group overlaid with the split ids. */
    function PickGroup(groupId: string): (r: Fields)
      reads this
      ensures Get(r, "guild_id") == Some(ParseGroupId(groupId).guildId)
      ensures Get(r, "channel_id") == ParseGroupId(groupId).channelId
      ensures Get(r, "self_id") == Some(uin)
      ensures forall k :: k !in {"self_id", "guild_id", "channel_id"} ==> Get(r, k) == Get(Lookup(gl, groupId), k)
    {
      var ref := ParseGroupId(groupId);
      Assign(Assign(Assign(Lookup(gl, groupId), "self_id", Some(uin)), "guild_id", Some(ref.guildId)),
             "channel_id", ref.channelId)
    }

    /** `makeFriendMessage` / `makeGroupMessage`: normalise, upsert the sender, name the events. */
    method MakeTypedMessage(raw: RawMessage, t: MessageType) returns (msg: Message, events: seq<string>)
      modifies this
      ensures msg == MessageOf(uin, raw)
      ensures fl == Registered(old(fl), t, msg)
      ensures Heard(fl, raw, t)
      ensures gl == old(gl) && nickname == old(nickname) && avatar == old(avatar)
      ensures events == ["message." + TypeName(t), "message"]
    {
      msg := MakeMessage(uin, raw);
      fl := fl[msg.userId := FriendEntry(Lookup(fl, msg.userId), t, msg)];
      assert msg.postType + "." == "message.";
      events := [msg.postType + "." + TypeName(t), msg.postType];
    }

    /** `message(bot, data)`: dispatch on the event type; deletions and unknown events change nothing. */
    method OnEvent(eventType: string, raw: RawMessage) returns (handled: Option<Message>, events: seq<string>)
      modifies this
      ensures Dispatch(eventType).None? ==> handled.None? && events == [] && fl == old(fl)
      ensures Dispatch(eventType).Some? ==>
                && handled == Some(MessageOf(uin, raw))
                && fl == Registered(old(fl), Dispatch(eventType).value, handled.value)
                && Heard(fl, raw, Dispatch(eventType).value)
                && events == ["message." + TypeName(Dispatch(eventType).value), "message"]
      ensures gl == old(gl) && nickname == old(nickname) && avatar == old(avatar)
    {
      match Dispatch(eventType)
      case None =>
        handled, events := None, [];
      case Some(t) =>
        var msg;
        msg, events := MakeTypedMessage(raw, t);
        handled := Some(msg);
    }
  }

  /**
   * The sender's entry after a message of type `t`, in terms of the payload:
   * the author's id, user name and avatar, and where the message came from.
   */
  ghost predicate Heard(fl: FriendList, raw: RawMessage, t: MessageType) {
    var key := Get(raw.author, "id");
    && key in fl
    && Get(fl[key], "user_id") == key
    && Get(fl[key], "nickname") == Get(raw.author, "username")
    && Get(fl[key], "avatar") == Get(raw.author, "avatar")
    && (t == Group ==> Get(fl[key], "source_guild_id") == raw.guildId && Get(fl[key], "source_channel_id") == raw.channelId)
    && (t == Private ==> Get(fl[key], "guild_id") == raw.guildId && Get(fl[key], "channel_id") == raw.channelId)
  }

  /** After a message, `pickFriend` of its sender carries what the message said about them. */
  lemma {:induction false} PickFriendAfterMessage(fl: FriendList, t: MessageType, msg: Message, userId: string)
    requires msg.userId == Some(userId)
    ensures var e := FriendEntry(Lookup(fl, msg.userId), t, msg);
            && Lookup(Registered(fl, t, msg), Some(userId)) == e
            && Get(e, "nickname") == msg.sender.nickname
            && (t == Group ==> Get(e, "source_guild_id") == msg.guildId)
  {
  }

  /** Picking the group of a message built from numeric ids recovers its guild and channel. */
  lemma {:induction false} PickGroupOfMessage(a: Account, guild: string, channel: string)
    requires IsNumeric(guild) && IsNumeric(channel)
    ensures Get(a.PickGroup(GroupId(Some(guild), Some(channel))), "guild_id") == Some(guild)
    ensures Get(a.PickGroup(GroupId(Some(guild), Some(channel))), "channel_id") == Some(channel)
  {
    NumericGroupIdRoundTrip(guild, channel);
  }

  /** Picking a member in a group built from numeric ids records the guild and channel as its source. */
  lemma {:induction false} PickMemberOfGroup(a: Account, guild: string, channel: string, userId: string)
    requires IsNumeric(guild) && IsNumeric(channel)
    ensures Get(a.PickMember(GroupId(Some(guild), Some(channel)), userId), "source_guild_id") == Some(guild)
    ensures Get(a.PickMember(GroupId(Some(guild), Some(channel)), userId), "source_channel_id") == Some(channel)
  {
    NumericGroupIdRoundTrip(guild, channel);
  }
}
